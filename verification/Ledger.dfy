/** What a consistent ledger guarantees: unique numbering, exact recoupment, and conserved money. */
module Ledger {
  import opened Options
  import opened InvoiceNumbers
  import opened Claims
  import opened PayInFullAmounts
  import opened PaymentExtract
  import opened Tables
  import opened Consistency

  // ------------------------------------------------------ reading the invariant

  lemma ReferencesFit(db: Database, recouped: Recouped, c: nat, d: nat)
    requires Consistent(db, recouped) && c < |db.claims| && d < |db.claims|
    ensures |db.claims[c].reference| == |db.claims[d].reference|
    ensures db.claims[c].reference == db.claims[d].reference ==> c == d
  {
    assert ClaimFits(db.claims[c], |db.applications|) && ClaimFits(db.claims[d], |db.applications|);
  }

  lemma RecoupedFits(db: Database, recouped: Recouped, b: nat)
    requires Consistent(db, recouped) && b in recouped
    ensures b < |db.claims| && !db.claims[b].IsPoa() && db.claims[b].IsPaid()
    ensures Ascending(recouped[b])
    ensures forall p | p in recouped[b] :: p < |db.claims| && p != b && IsRecoupable(db.claims[p], db.claims[b].app)
  {
    assert RecoupFits(db.claims, b, recouped[b]);
  }

  /** No application has two paid bills. */
  lemma OnePaidBill(db: Database, recouped: Recouped, b: nat, c: nat)
    requires Consistent(db, recouped) && b < |db.claims| && c < |db.claims|
    requires db.claims[b].IsActiveBill() && db.claims[c].IsActiveBill() && db.claims[b].app == db.claims[c].app
    ensures b == c
  {
  }

  lemma PaidBillsRecorded(db: Database, recouped: Recouped, b: nat)
    requires Consistent(db, recouped) && b < |db.claims|
    ensures b in recouped <==> !db.claims[b].IsPoa() && db.claims[b].IsPaid()
  {
  }

  // ------------------------------------------------------------ a claim's lines

  /** The lines that pay the claim itself, without recoupments. */
  function Own(db: Database, c: nat): seq<Line>
    requires c < |db.claims|
  {
    var claim, decision := db.claims[c], LatestDecision(db.decisions, c);
    if !claim.IsPaid() || decision.None? || decision.value.amounts.None? then []
    else if claim.IsPoa() then PoaLines(claim, decision.value.amounts.value).GetOr([])
    else BillLines(claim, decision.value.amounts.value)
  }

  function RecoupedLines(db: Database, recouped: Recouped, c: nat): seq<Line> {
    Sources(db.ledger, RecoupedBy(recouped, c))
  }

  function DecidedDay(db: Database, c: nat): int {
    var decision := LatestDecision(db.decisions, c);
    if decision.Some? then Day(decision.value.createdAt) else 0
  }

  /** Own lines numbered 1..k, then one recoupment line for each line recouped. */
  lemma LinesSplit(db: Database, recouped: Recouped, c: nat)
    requires Consistent(db, recouped) && c < |db.claims|
    ensures Numbered(db.claims[c].reference, Own(db, c))
    ensures LinesOf(db.ledger, c)
         == Own(db, c) + RecoupmentLines(|Own(db, c)| + 1, DecidedDay(db, c), RecoupedLines(db, recouped, c))
    ensures db.claims[c].IsPoa() || !db.claims[c].IsPaid() ==> LinesOf(db.ledger, c) == Own(db, c)
  {
    hide LinesOf, Sources, BillLines, PoaLines, Numbered, LatestDecision;
    var claim, decision := db.claims[c], LatestDecision(db.decisions, c);
    ReadLines(db, recouped, c);
    hide Consistent;
    if claim.IsPaid() {
      var a := decision.value.amounts.value;
      if !claim.IsPoa() {
        BillLinesNumbered(claim, a);
      } else if PoaLines(claim, a).Some? {
        PoaLinesNumbered(claim, a);
      }
    }
    NoLinesNumbered(claim.reference);
  }

  lemma NoLinesNumbered(reference: string)
    ensures Numbered(reference, [])
  {
  }

  lemma ReadLines(db: Database, recouped: Recouped, c: nat)
    requires Consistent(db, recouped) && c < |db.claims|
    ensures var claim, decision := db.claims[c], LatestDecision(db.decisions, c);
            && StatusFits(claim, decision)
            && LinesOf(db.ledger, c) == Expected(claim, decision, RecoupedLines(db, recouped, c))
            && (claim.IsPoa() || !claim.IsPaid() ==> RecoupedLines(db, recouped, c) == [])
  {
    hide LinesOf, Expected, LatestDecision, StatusFits;
  }

  /** Kinds tell own lines and recoupments apart. */
  lemma OwnKinds(db: Database, recouped: Recouped, c: nat, k: nat)
    requires Consistent(db, recouped) && c < |db.claims| && k < |Own(db, c)|
    ensures db.claims[c].IsPaid()
    ensures db.claims[c].IsPoa() ==> Own(db, c)[k].kind == POA
    ensures !db.claims[c].IsPoa() ==> Own(db, c)[k].kind in {FinalBillFees, FinalBillDisbursement}
  {
    var claim, a := db.claims[c], LatestDecision(db.decisions, c).value.amounts.value;
    if claim.IsPoa() {
      PoaLinesNumbered(claim, a);
    } else {
      BillLinesNumbered(claim, a);
    }
  }

  /** Each claim's lines carry the sequence numbers 1, 2, ..., n without a gap. */
  lemma SequencesContiguous(db: Database, recouped: Recouped, c: nat)
    requires Consistent(db, recouped) && c < |db.claims|
    ensures forall k | 0 <= k < |LinesOf(db.ledger, c)| :: LinesOf(db.ledger, c)[k].sequence == k + 1
  {
    hide Consistent, Own, LinesOf;
    LinesSplit(db, recouped, c);
    var own, rest := Own(db, c), RecoupmentLines(|Own(db, c)| + 1, DecidedDay(db, c), RecoupedLines(db, recouped, c));
    var all: seq<Line> := own + rest;
    forall k | 0 <= k < |all|
      ensures all[k].sequence == k + 1
    {
      if k >= |own| {
        assert all[k] == rest[k - |own|];
      }
    }
  }

  // ---------------------------------------------------------- where a source is

  /** Which claim, and which of its lines, a source of a recoupment is. */
  function SourceAt(ledger: seq<LedgerRow>, ids: seq<nat>, j: nat): (at: (nat, nat))
    requires j < |Sources(ledger, ids)|
    ensures at.0 in ids && at.1 < |LinesOf(ledger, at.0)|
    ensures Sources(ledger, ids)[j] == LinesOf(ledger, at.0)[at.1]
  {
    var last := |ids| - 1;
    var before := |Sources(ledger, ids[..last])|;
    if j < before then SourceAt(ledger, ids[..last], j) else (ids[last], j - before)
  }

  predicate Ascending(ids: seq<nat>) {
    forall i, j | 0 <= i < j < |ids| :: ids[i] < ids[j]
  }

  lemma {:induction false} SourceAtInjective(ledger: seq<LedgerRow>, ids: seq<nat>, i: nat, j: nat)
    requires Ascending(ids)
    requires i < j < |Sources(ledger, ids)|
    ensures SourceAt(ledger, ids, i) != SourceAt(ledger, ids, j)
  {
    var last := |ids| - 1;
    var before := |Sources(ledger, ids[..last])|;
    if j < before {
      SourceAtInjective(ledger, ids[..last], i, j);
    } else if i < before {
      assert ids[last] !in ids[..last];
    }
  }

  lemma {:induction false} SourceOf(ledger: seq<LedgerRow>, ids: seq<nat>, p: nat, k: nat) returns (j: nat)
    requires p in ids && k < |LinesOf(ledger, p)|
    ensures j < |Sources(ledger, ids)| && Sources(ledger, ids)[j] == LinesOf(ledger, p)[k]
  {
    hide LinesOf;
    var last := |ids| - 1;
    if p == ids[last] {
      j := |Sources(ledger, ids[..last])| + k;
    } else {
      j := SourceOf(ledger, ids[..last], p, k);
    }
  }

  // ----------------------------------------------------------------- recoupment

  /**
   Every line of a recouped payment on account is taken back by a line of the bill: opposite amount, same tax code.
   */
  lemma RecoupedExactly(db: Database, recouped: Recouped, b: nat, p: nat, k: nat) returns (j: nat)
    requires Consistent(db, recouped) && b < |db.claims| && b in recouped
    requires p in recouped[b] && k < |LinesOf(db.ledger, p)|
    ensures j < |LinesOf(db.ledger, b)|
    ensures var original, line := LinesOf(db.ledger, p)[k], LinesOf(db.ledger, b)[j];
            && line.kind == Recouped
            && line.number == RecoupmentNumber(original.number)
            && line.amount == -original.amount
            && line.tax == original.tax
            && line.day == DecidedDay(db, b)
  {
    hide Consistent, Own, LinesOf;
    LinesSplit(db, recouped, b);
    var s := SourceOf(db.ledger, recouped[b], p, k);
    j := |Own(db, b)| + s;
  }

  /** Beyond its own lines a claim has recoupment lines only, one for each source. */
  lemma RecoupmentAt(db: Database, recouped: Recouped, b: nat, j: nat)
    requires Consistent(db, recouped) && b < |db.claims|
    requires |Own(db, b)| <= j < |LinesOf(db.ledger, b)|
    ensures b in recouped && j - |Own(db, b)| < |RecoupedLines(db, recouped, b)|
    ensures LinesOf(db.ledger, b)[j].kind == Recouped
    ensures LinesOf(db.ledger, b)[j].number == RecoupmentNumber(RecoupedLines(db, recouped, b)[j - |Own(db, b)|].number)
  {
    hide Consistent, Own, LinesOf;
    LinesSplit(db, recouped, b);
  }

  /** Conversely, a recoupment number names a line of a payment on account that this bill recouped. */
  lemma RecoupmentOrigin(db: Database, recouped: Recouped, b: nat, j: nat) returns (p: nat, k: nat)
    requires Consistent(db, recouped) && b < |db.claims|
    requires |Own(db, b)| <= j < |LinesOf(db.ledger, b)|
    ensures b in recouped && p in recouped[b] && p < |db.claims| && k < |LinesOf(db.ledger, p)|
    ensures IsRecoupable(db.claims[p], db.claims[b].app) && LinesOf(db.ledger, p) == Own(db, p)
    ensures LinesOf(db.ledger, b)[j].kind == Recouped
    ensures LinesOf(db.ledger, b)[j].number == RecoupmentNumber(LinesOf(db.ledger, p)[k].number)
    ensures j - |Own(db, b)| < |RecoupedLines(db, recouped, b)|
    ensures (p, k) == SourceAt(db.ledger, RecoupedBy(recouped, b), j - |Own(db, b)|)
  {
    hide *;
    RecoupmentAt(db, recouped, b, j);
    assert RecoupedLines(db, recouped, b) == Sources(db.ledger, RecoupedBy(recouped, b))
           && RecoupedBy(recouped, b) == recouped[b] by {
      RecoupedIs(db, recouped, b);
    }
    var at := SourceAt(db.ledger, RecoupedBy(recouped, b), j - |Own(db, b)|);
    p, k := at.0, at.1;
    RecoupedFits(db, recouped, b);
    PoaHasOwnLines(db, recouped, p, db.claims[b].app);
  }

  lemma RecoupedIs(db: Database, recouped: Recouped, b: nat)
    requires b in recouped
    ensures RecoupedBy(recouped, b) == recouped[b]
    ensures RecoupedLines(db, recouped, b) == Sources(db.ledger, recouped[b])
  {
  }

  lemma PoaHasOwnLines(db: Database, recouped: Recouped, p: nat, app: nat)
    requires Consistent(db, recouped) && p < |db.claims| && IsRecoupable(db.claims[p], app)
    ensures LinesOf(db.ledger, p) == Own(db, p)
  {
    hide Consistent, Own, LinesOf;
    LinesSplit(db, recouped, p);
  }

  /** Own lines: the number determines the claim and the line. */
  lemma OwnNumbersDiffer(db: Database, recouped: Recouped, c: nat, i: nat, d: nat, j: nat)
    requires Consistent(db, recouped) && c < |db.claims| && d < |db.claims|
    requires i < |Own(db, c)| && j < |Own(db, d)|
    requires Own(db, c)[i].number == Own(db, d)[j].number
    ensures c == d && i == j
  {
    hide Consistent, Own, LinesOf, InvoiceNumber;
    LinesSplit(db, recouped, c);
    LinesSplit(db, recouped, d);
    ReferencesFit(db, recouped, c, d);
    InvoiceNumberInjective(db.claims[c].reference, i + 1, db.claims[d].reference, j + 1);
  }

  /** A payment on account is recouped by one bill at most. */
  lemma RecoupedByOne(db: Database, recouped: Recouped, b: nat, c: nat, p: nat)
    requires Consistent(db, recouped) && b in recouped && c in recouped
    requires p in recouped[b] && p in recouped[c]
    ensures b == c
  {
    hide Consistent;
    RecoupedFits(db, recouped, b);
    RecoupedFits(db, recouped, c);
    OnePaidBill(db, recouped, b, c);
  }

  lemma RecoupmentNumbersDiffer(db: Database, recouped: Recouped, c: nat, i: nat, d: nat, j: nat)
    requires Consistent(db, recouped) && c < |db.claims| && d < |db.claims|
    requires |Own(db, c)| <= i < |LinesOf(db.ledger, c)| && |Own(db, d)| <= j < |LinesOf(db.ledger, d)|
    requires LinesOf(db.ledger, c)[i].number == LinesOf(db.ledger, d)[j].number
    ensures c == d && i == j
  {
    hide *;
    var p, k := RecoupmentOrigin(db, recouped, c, i);
    var q, l := RecoupmentOrigin(db, recouped, d, j);
    RecoupmentNumberInjective(Own(db, p)[k].number, Own(db, q)[l].number);
    OwnNumbersDiffer(db, recouped, p, k, q, l);
    RecoupedByOne(db, recouped, c, d, p);
    RecoupedFits(db, recouped, c);
    RecoupedIs(db, recouped, c);
    var s, t := i - |Own(db, c)|, j - |Own(db, c)|;
    if s < t {
      SourceAtInjective(db.ledger, recouped[c], s, t);
    } else if t < s {
      SourceAtInjective(db.ledger, recouped[c], t, s);
    }
  }

  lemma OwnIsNoRecoupment(db: Database, recouped: Recouped, c: nat, i: nat, d: nat, j: nat)
    requires Consistent(db, recouped) && c < |db.claims| && d < |db.claims|
    requires i < |Own(db, c)| && |Own(db, d)| <= j < |LinesOf(db.ledger, d)|
    ensures Own(db, c)[i].number != LinesOf(db.ledger, d)[j].number
  {
    hide Consistent, Own, LinesOf, InvoiceNumber;
    LinesSplit(db, recouped, c);
    var q, l := RecoupmentOrigin(db, recouped, d, j);
    OwnNumberIsNoRecoupment(db.claims[c].reference, i + 1, LinesOf(db.ledger, q)[l].number);
  }

  lemma OwnFirst(db: Database, recouped: Recouped, c: nat, i: nat)
    requires Consistent(db, recouped) && c < |db.claims| && i < |Own(db, c)|
    ensures i < |LinesOf(db.ledger, c)| && LinesOf(db.ledger, c)[i] == Own(db, c)[i]
  {
    hide Consistent, Own, LinesOf;
    LinesSplit(db, recouped, c);
  }

  /** Any two lines with the same number are the same line of the same claim. */
  lemma NumbersDiffer(db: Database, recouped: Recouped, c: nat, i: nat, d: nat, j: nat)
    requires Consistent(db, recouped) && c < |db.claims| && d < |db.claims|
    requires i < |LinesOf(db.ledger, c)| && j < |LinesOf(db.ledger, d)|
    requires LinesOf(db.ledger, c)[i].number == LinesOf(db.ledger, d)[j].number
    ensures c == d && i == j
  {
    hide Consistent, Own, LinesOf;
    if i < |Own(db, c)| {
      OwnFirst(db, recouped, c, i);
    }
    if j < |Own(db, d)| {
      OwnFirst(db, recouped, d, j);
    }
    if i < |Own(db, c)| && j < |Own(db, d)| {
      OwnNumbersDiffer(db, recouped, c, i, d, j);
    } else if i < |Own(db, c)| {
      OwnIsNoRecoupment(db, recouped, c, i, d, j);
    } else if j < |Own(db, d)| {
      OwnIsNoRecoupment(db, recouped, d, j, c, i);
    } else {
      RecoupmentNumbersDiffer(db, recouped, c, i, d, j);
    }
  }

  // ------------------------------------------------------------- the whole table

  /** Where a ledger row stands among its claim's lines. */
  function Position(ledger: seq<LedgerRow>, i: nat): nat
    requires i < |ledger|
  {
    |LinesOf(ledger[..i], ledger[i].claim)|
  }

  lemma {:induction false} PrefixLines(ledger: seq<LedgerRow>, n: nat, c: nat)
    requires n <= |ledger|
    ensures LinesOf(ledger[..n], c) <= LinesOf(ledger, c)
  {
    if n < |ledger| {
      var shorter := ledger[..|ledger| - 1];
      PrefixLines(shorter, n, c);
      assert shorter[..n] == ledger[..n];
    } else {
      assert ledger[..n] == ledger;
    }
  }

  lemma PositionFits(ledger: seq<LedgerRow>, i: nat)
    requires i < |ledger|
    ensures Position(ledger, i) < |LinesOf(ledger, ledger[i].claim)|
    ensures LinesOf(ledger, ledger[i].claim)[Position(ledger, i)] == ledger[i].line
  {
    PrefixLines(ledger, i + 1, ledger[i].claim);
    assert ledger[..i + 1][..i] == ledger[..i];
  }

  lemma PositionsAscend(ledger: seq<LedgerRow>, i: nat, j: nat)
    requires i < j < |ledger| && ledger[i].claim == ledger[j].claim
    ensures Position(ledger, i) < Position(ledger, j)
  {
    PositionFits(ledger[..j], i);
    assert ledger[..j][..i] == ledger[..i];
  }

  /** Every line of a claim is a row of the ledger. */
  lemma {:induction false} RowAt(ledger: seq<LedgerRow>, c: nat, k: nat) returns (i: nat)
    requires k < |LinesOf(ledger, c)|
    ensures i < |ledger| && ledger[i].claim == c && ledger[i].line == LinesOf(ledger, c)[k]
  {
    var last := |ledger| - 1;
    if k < |LinesOf(ledger[..last], c)| {
      i := RowAt(ledger[..last], c, k);
    } else {
      i := last;
    }
  }

  /** Both unique constraints of the ledger hold: invoice numbers, and sequence numbers within a claim. */
  lemma UniqueConstraints(db: Database, recouped: Recouped)
    requires Consistent(db, recouped)
    ensures forall i, j | 0 <= i < j < |db.ledger| :: db.ledger[i].line.number != db.ledger[j].line.number
    ensures forall i, j | 0 <= i < j < |db.ledger| ::
              db.ledger[i].claim == db.ledger[j].claim ==> db.ledger[i].line.sequence != db.ledger[j].line.sequence
  {
    assert forall r | r in db.ledger :: r.claim < |db.claims|;
    forall i, j | 0 <= i < j < |db.ledger|
      ensures db.ledger[i].line.number != db.ledger[j].line.number
      ensures db.ledger[i].claim == db.ledger[j].claim ==> db.ledger[i].line.sequence != db.ledger[j].line.sequence
    {
      RowsDiffer(db, recouped, i, j);
    }
  }

  lemma RowsDiffer(db: Database, recouped: Recouped, i: nat, j: nat)
    requires Consistent(db, recouped) && i < j < |db.ledger|
    requires db.ledger[i].claim < |db.claims| && db.ledger[j].claim < |db.claims|
    ensures db.ledger[i].line.number != db.ledger[j].line.number
    ensures db.ledger[i].claim == db.ledger[j].claim ==> db.ledger[i].line.sequence != db.ledger[j].line.sequence
  {
    hide Consistent, LinesOf;
    PositionFits(db.ledger, i);
    PositionFits(db.ledger, j);
    var c, d := db.ledger[i].claim, db.ledger[j].claim;
    var m, n := Position(db.ledger, i), Position(db.ledger, j);
    if db.ledger[i].line.number == db.ledger[j].line.number {
      NumbersDiffer(db, recouped, c, m, d, n);
    }
    if c == d {
      PositionsAscend(db.ledger, i, j);
      SequencesContiguous(db, recouped, c);
    }
  }

  // --------------------------------------------------------------- conservation

  /** The sum of all ledger amounts of one application. */
  function AppTotal(claims: seq<Claim>, ledger: seq<LedgerRow>, app: nat): int {
    if ledger == [] then 0
    else
      var last := ledger[|ledger| - 1];
      AppTotal(claims, ledger[..|ledger| - 1], app)
      + if last.claim < |claims| && claims[last.claim].app == app then last.line.amount else 0
  }

  /** The same sum claim by claim, over the first n claims. */
  function ByClaim(claims: seq<Claim>, ledger: seq<LedgerRow>, app: nat, n: nat): int
    requires n <= |claims|
  {
    if n == 0 then 0
    else ByClaim(claims, ledger, app, n - 1) + if claims[n - 1].app == app then Sum(LinesOf(ledger, n - 1)) else 0
  }

  lemma {:induction false} ByClaimAppend(claims: seq<Claim>, ledger: seq<LedgerRow>, row: LedgerRow, app: nat, n: nat)
    requires n <= |claims|
    ensures ByClaim(claims, ledger + [row], app, n)
         == ByClaim(claims, ledger, app, n)
            + if row.claim < n && claims[row.claim].app == app then row.line.amount else 0
  {
    if n > 0 {
      ByClaimAppend(claims, ledger, row, app, n - 1);
      var all := ledger + [row];
      assert all[..|all| - 1] == ledger;
      if row.claim == n - 1 {
        var lines := LinesOf(ledger, n - 1) + [row.line];
        assert lines[..|lines| - 1] == LinesOf(ledger, n - 1);
      } else {
        assert LinesOf(all, n - 1) == LinesOf(ledger, n - 1);
      }
    }
  }

  lemma {:induction false} AppTotalByClaim(claims: seq<Claim>, ledger: seq<LedgerRow>, app: nat)
    ensures AppTotal(claims, ledger, app) == ByClaim(claims, ledger, app, |claims|)
  {
    if ledger == [] {
      NothingByClaim(claims, app, |claims|);
    } else {
      var last := |ledger| - 1;
      AppTotalByClaim(claims, ledger[..last], app);
      ByClaimAppend(claims, ledger[..last], ledger[last], app, |claims|);
      assert ledger[..last] + [ledger[last]] == ledger;
    }
  }

  lemma {:induction false} NothingByClaim(claims: seq<Claim>, app: nat, n: nat)
    requires n <= |claims|
    ensures ByClaim(claims, [], app, n) == 0
  {
    if n > 0 {
      NothingByClaim(claims, app, n - 1);
    }
  }

  /** The lines of the claims in `ids` among the first n. */
  function Within(ledger: seq<LedgerRow>, ids: seq<nat>, n: nat): int {
    if n == 0 then 0 else Within(ledger, ids, n - 1) + if n - 1 in ids then Sum(LinesOf(ledger, n - 1)) else 0
  }

  lemma {:induction false} WithinAdd(ledger: seq<LedgerRow>, ids: seq<nat>, p: nat, n: nat)
    requires p !in ids
    ensures Within(ledger, ids + [p], n) == Within(ledger, ids, n) + if p < n then Sum(LinesOf(ledger, p)) else 0
  {
    if n > 0 {
      WithinAdd(ledger, ids, p, n - 1);
    }
  }

  lemma {:induction false} WithinNothing(ledger: seq<LedgerRow>, n: nat)
    ensures Within(ledger, [], n) == 0
  {
    if n > 0 {
      WithinNothing(ledger, n - 1);
    }
  }

  lemma {:induction false} SourcesTotal(ledger: seq<LedgerRow>, ids: seq<nat>, n: nat)
    requires Ascending(ids) && forall p | p in ids :: p < n
    ensures Sum(Sources(ledger, ids)) == Within(ledger, ids, n)
  {
    if ids == [] {
      WithinNothing(ledger, n);
    } else {
      var last := |ids| - 1;
      assert forall p | p in ids[..last] :: p in ids;
      assert Ascending(ids[..last]) && ids[last] !in ids[..last];
      SourcesTotal(ledger, ids[..last], n);
      WithinAdd(ledger, ids[..last], ids[last], n);
      assert ids[..last] + [ids[last]] == ids && ids[last] in ids;
      SumConcat(Sources(ledger, ids[..last]), LinesOf(ledger, ids[last]));
    }
  }

  /** The payments on account of an application that no bill has recouped, among the first n claims. */
  function Unrecouped(claims: seq<Claim>, ledger: seq<LedgerRow>, app: nat, ids: seq<nat>, n: nat): int
    requires n <= |claims|
  {
    if n == 0 then 0
    else
      Unrecouped(claims, ledger, app, ids, n - 1)
      + if IsRecoupable(claims[n - 1], app) && n - 1 !in ids then Sum(LinesOf(ledger, n - 1)) else 0
  }

  lemma UnpaidHasNoLines(db: Database, recouped: Recouped, c: nat)
    requires Consistent(db, recouped) && c < |db.claims| && !db.claims[c].IsPaid()
    ensures LinesOf(db.ledger, c) == []
  {
    LinesSplit(db, recouped, c);
  }

  /** Claim by claim: the bill, what it recouped, and the rest. */
  lemma {:induction false} SplitByClaim(db: Database, recouped: Recouped, app: nat, ids: seq<nat>, bill: Option<nat>,
                                        n: nat)
    requires Consistent(db, recouped) && n <= |db.claims|
    requires forall p | p in ids :: p < |db.claims| && IsRecoupable(db.claims[p], app)
    requires forall c: nat | c < |db.claims| && db.claims[c].app == app ::
               !db.claims[c].IsPoa() && db.claims[c].IsPaid() <==> bill == Some(c)
    requires bill.Some? ==> bill.value < |db.claims| && db.claims[bill.value].app == app
    ensures ByClaim(db.claims, db.ledger, app, n)
         == Unrecouped(db.claims, db.ledger, app, ids, n) + Within(db.ledger, ids, n)
            + if bill.Some? && bill.value < n then Sum(LinesOf(db.ledger, bill.value)) else 0
  {
    hide Consistent, LinesOf, Own;
    if n > 0 {
      SplitByClaim(db, recouped, app, ids, bill, n - 1);
      if !db.claims[n - 1].IsPaid() {
        UnpaidHasNoLines(db, recouped, n - 1);
      }
    }
  }

  /**
   Once a bill is paid, the application's ledger comes to the bill's own lines plus the
   payments on account the bill did not recoup.
   */
  lemma ConservedWithBill(db: Database, recouped: Recouped, b: nat)
    requires Consistent(db, recouped) && b < |db.claims| && b in recouped
    ensures var app := db.claims[b].app;
            AppTotal(db.claims, db.ledger, app)
            == Sum(Own(db, b)) + Unrecouped(db.claims, db.ledger, app, recouped[b], |db.claims|)
  {
    hide Consistent, LinesOf, Own, Sources;
    var app, ids := db.claims[b].app, recouped[b];
    RecoupedFits(db, recouped, b);
    forall c: nat | c < |db.claims| && db.claims[c].app == app && !db.claims[c].IsPoa() && db.claims[c].IsPaid()
      ensures c == b
    {
      OnePaidBill(db, recouped, b, c);
    }
    AppTotalByClaim(db.claims, db.ledger, app);
    SplitByClaim(db, recouped, app, ids, Some(b), |db.claims|);
    LinesSplit(db, recouped, b);
    SumConcat(Own(db, b), RecoupmentLines(|Own(db, b)| + 1, DecidedDay(db, b), Sources(db.ledger, ids)));
    RecoupmentNegates(|Own(db, b)| + 1, DecidedDay(db, b), Sources(db.ledger, ids));
    SourcesTotal(db.ledger, ids, |db.claims|);
  }

  /** Until then it is the sum of its paid payments on account. */
  lemma ConservedWithoutBill(db: Database, recouped: Recouped, app: nat)
    requires Consistent(db, recouped)
    requires forall b | b in recouped && b < |db.claims| :: db.claims[b].app != app
    ensures AppTotal(db.claims, db.ledger, app) == Unrecouped(db.claims, db.ledger, app, [], |db.claims|)
  {
    hide LinesOf;
    AppTotalByClaim(db.claims, db.ledger, app);
    SplitByClaim(db, recouped, app, [], None, |db.claims|);
    WithinNothing(db.ledger, |db.claims|);
  }

  /**
   A paid bill's own lines never come to less than was decided, and to just that exactly when no part decided is
   negative and the zero-rated disbursement lies within the gross; those of a nil bill come to nothing.
   */
  lemma PaidBillComesTo(db: Database, recouped: Recouped, b: nat)
    requires Consistent(db, recouped) && b < |db.claims| && b in recouped
    ensures LatestDecision(db.decisions, b).Some? && LatestDecision(db.decisions, b).value.amounts.Some?
    ensures var a := LatestDecision(db.decisions, b).value.amounts.value;
            var decided := a.ProfitTotal() + a.DisbursementTotal();
            && Sum(Own(db, b)) >= decided
            && (Sum(Own(db, b)) == decided <==>
                a.ProfitTotal() >= 0 && Nests(a.disbursementGross, a.disbursementVatZero))
            && (a.NonNegative() ==> Sum(Own(db, b)) == decided && 1 <= |Own(db, b)| <= 3)
            && (db.claims[b].claimType == NilBill ==> a.IsNil() && Sum(Own(db, b)) == 0)
  {
    var claim := db.claims[b];
    assert ClaimFits(claim, |db.applications|);
    assert StatusFits(claim, LatestDecision(db.decisions, b));
    var a := LatestDecision(db.decisions, b).value.amounts.value;
    assert Own(db, b) == BillLines(claim, a);
    hide Consistent, BillLines, LatestDecision;
    CheckExact(claim.claimType, claim.poaType, a);
    BillSplitExact(claim, a);
    if a.NonNegative() {
      BillSplitConserved(claim, a);
    }
  }
}
