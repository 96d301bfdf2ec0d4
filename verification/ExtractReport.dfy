/** The payment extract and OGD reports: the joins behind them and how each line is classified. */
module ExtractReport {
  import opened Options
  import opened InvoiceNumbers
  import opened Claims
  import opened PaymentExtract
  import opened Tables
  import opened Consistency
  import opened Ledger
  import opened Assessments
  import opened Runs

  datatype LineType = LineType(kind: InvoiceType, poaType: Option<POAType>, originalPoaType: Option<POAType>)

  datatype Classification = FinalBillProfitCosts | PoaProfitCosts | Disbursements {
    /** The model number is shared by final and on-account profit costs. */
    predicate IsProfitCosts() { FinalBillProfitCosts? || PoaProfitCosts? }
  }

  /** None where the line cannot be classified. */
  function Classify(t: LineType): Option<Classification> {
    match t.kind
    case FinalBillFees => Some(FinalBillProfitCosts)
    case FinalBillDisbursement => Some(Disbursements)
    case POA => ClassifyPoa(t.poaType)
    case Recouped => ClassifyPoa(t.originalPoaType)
  }

  function ClassifyPoa(poaType: Option<POAType>): Option<Classification> {
    match poaType
    case None => None
    case Some(ProfitCost) => Some(PoaProfitCosts)
    case Some(_) => Some(Disbursements)
  }

  datatype ReportRow = ReportRow(row: LedgerRow, lineType: LineType)

  /** The ledger rows whose number, with the recoupment suffix, is the given one. */
  function Originals(ledger: seq<LedgerRow>, number: string): seq<LedgerRow> {
    if ledger == [] then []
    else
      var last := ledger[|ledger| - 1];
      Originals(ledger[..|ledger| - 1], number)
      + if RecoupmentNumber(last.line.number) == number then [last] else []
  }

  function PoaTypeOf(db: Database, c: nat): Option<POAType> {
    if c < |db.claims| then db.claims[c].poaType else None
  }

  function Joined(db: Database, row: LedgerRow, originals: seq<LedgerRow>): seq<ReportRow> {
    seq(|originals|, k requires 0 <= k < |originals| =>
      ReportRow(row, LineType(row.line.kind, PoaTypeOf(db, row.claim), PoaTypeOf(db, originals[k].claim))))
  }

  /** One ledger row joined to its claim and, if it is a recoupment, left-joined to its originals. */
  function JoinRow(db: Database, row: LedgerRow): seq<ReportRow> {
    if row.claim >= |db.claims| then []
    else
      var originals := if row.line.kind == Recouped then Originals(db.ledger, row.line.number) else [];
      if originals == [] then [ReportRow(row, LineType(row.line.kind, PoaTypeOf(db, row.claim), None))]
      else Joined(db, row, originals)
  }

  /** The rows written in the half-open window. */
  function InWindow(rows: seq<LedgerRow>, from: int, before: int): seq<LedgerRow> {
    if rows == [] then []
    else
      var last := rows[|rows| - 1];
      InWindow(rows[..|rows| - 1], from, before) + if from <= last.createdAt < before then [last] else []
  }

  function Report(db: Database, rows: seq<LedgerRow>): seq<ReportRow> {
    if rows == [] then [] else Report(db, rows[..|rows| - 1]) + JoinRow(db, rows[|rows| - 1])
  }

  // -------------------------------------------------------------- finding originals

  lemma {:induction false} OriginalsExact(ledger: seq<LedgerRow>, number: string)
    ensures forall o :: o in Originals(ledger, number) <==> o in ledger && RecoupmentNumber(o.line.number) == number
  {
    if ledger != [] {
      OriginalsExact(ledger[..|ledger| - 1], number);
    }
  }

  lemma {:induction false} OriginalsAtMostOne(ledger: seq<LedgerRow>, number: string)
    requires forall i, j | 0 <= i < j < |ledger| :: ledger[i].line.number != ledger[j].line.number
    ensures |Originals(ledger, number)| <= 1
  {
    if ledger != [] {
      var last := |ledger| - 1;
      OriginalsAtMostOne(ledger[..last], number);
      if RecoupmentNumber(ledger[last].line.number) == number && Originals(ledger[..last], number) != [] {
        OriginalsExact(ledger[..last], number);
        var o := Originals(ledger[..last], number)[0];
        assert o in Originals(ledger[..last], number);
        RecoupmentNumberInjective(o.line.number, ledger[last].line.number);
      }
    }
  }

  /** A recoupment line has exactly one original: the line of the payment on account it was made from. */
  lemma OriginalOfLine(db: Database, recouped: Recouped, b: nat, j: nat) returns (o: nat)
    requires Consistent(db, recouped) && b < |db.claims| && |Own(db, b)| <= j < |LinesOf(db.ledger, b)|
    ensures b in recouped && j - |Own(db, b)| < |Sources(db.ledger, recouped[b])|
    ensures o < |db.ledger| && Originals(db.ledger, LinesOf(db.ledger, b)[j].number) == [db.ledger[o]]
    ensures db.ledger[o].claim == SourceAt(db.ledger, recouped[b], j - |Own(db, b)|).0
    ensures db.ledger[o].claim < |db.claims| && db.claims[db.ledger[o].claim].poaType.Some?
    ensures db.claims[db.ledger[o].claim].app == db.claims[b].app
    ensures db.ledger[o].line.kind == POA
    ensures LinesOf(db.ledger, b)[j].amount == -db.ledger[o].line.amount
    ensures LinesOf(db.ledger, b)[j].tax == db.ledger[o].line.tax
  {
    hide *;
    var number := LinesOf(db.ledger, b)[j].number;
    var p, k := RecoupmentOrigin(db, recouped, b, j);
    RecoupedIs(db, recouped, b);
    o := RowAt(db.ledger, p, k);
    UniqueConstraints(db, recouped);
    OriginalsExact(db.ledger, number);
    OriginalsAtMostOne(db.ledger, number);
    assert db.ledger[o] in Originals(db.ledger, number);
    PoaRows(db, recouped, p, k, db.claims[b].app);
    var m := RecoupedExactly(db, recouped, b, p, k);
    NumbersDiffer(db, recouped, b, j, b, m);
  }

  /** A recoupment row has exactly one original, on a payment on account of the same application. */
  lemma OneOriginal(db: Database, recouped: Recouped, i: nat) returns (o: nat)
    requires Consistent(db, recouped) && i < |db.ledger|
    requires db.ledger[i].claim < |db.claims| && db.ledger[i].line.kind == Recouped
    ensures o < |db.ledger| && Originals(db.ledger, db.ledger[i].line.number) == [db.ledger[o]]
    ensures db.ledger[o].claim < |db.claims| && db.claims[db.ledger[o].claim].poaType.Some?
    ensures db.claims[db.ledger[o].claim].app == db.claims[db.ledger[i].claim].app
    ensures db.ledger[o].line.kind == POA
    ensures db.ledger[i].line.amount == -db.ledger[o].line.amount && db.ledger[i].line.tax == db.ledger[o].line.tax
  {
    hide *;
    var b, j := db.ledger[i].claim, Position(db.ledger, i);
    PositionFits(db.ledger, i);
    if j < |Own(db, b)| {
      OwnFirst(db, recouped, b, j);
      OwnKinds(db, recouped, b, j);
    }
    o := OriginalOfLine(db, recouped, b, j);
  }

  lemma PoaRows(db: Database, recouped: Recouped, p: nat, k: nat, app: nat)
    requires Consistent(db, recouped) && p < |db.claims| && IsRecoupable(db.claims[p], app)
    requires k < |LinesOf(db.ledger, p)|
    ensures LinesOf(db.ledger, p)[k].kind == POA && db.claims[p].poaType.Some? && db.claims[p].app == app
  {
    PoaHasOwnLines(db, recouped, p, app);
    assert ClaimFits(db.claims[p], |db.applications|);
    hide Consistent, Own, LinesOf;
    OwnKinds(db, recouped, p, k);
  }

  // ---------------------------------------------------------------- exactly once

  /** A ledger row gives one report row, and that row is classified: a recoupment like its original. */
  lemma RowReportedOnce(db: Database, recouped: Recouped, i: nat)
    requires Consistent(db, recouped) && i < |db.ledger|
    requires db.ledger[i].claim < |db.claims|
    ensures var rows := JoinRow(db, db.ledger[i]);
            && |rows| == 1 && rows[0].row == db.ledger[i]
            && Classify(rows[0].lineType).Some?
    ensures db.ledger[i].line.kind == Recouped ==>
              var originals := Originals(db.ledger, db.ledger[i].line.number);
              && |originals| == 1 && originals[0] in db.ledger
              && JoinRow(db, originals[0]) != []
              && Classify(JoinRow(db, db.ledger[i])[0].lineType) == Classify(JoinRow(db, originals[0])[0].lineType)
              && db.ledger[i].line.amount + originals[0].line.amount == 0
  {
    hide Consistent, Originals;
    if db.ledger[i].line.kind == Recouped {
      var o := OneOriginal(db, recouped, i);
      assert JoinRow(db, db.ledger[i]) == Joined(db, db.ledger[i], [db.ledger[o]]);
    } else if db.ledger[i].line.kind == POA {
      PoaRowHasType(db, recouped, i);
    }
  }

  lemma PoaRowHasType(db: Database, recouped: Recouped, i: nat)
    requires Consistent(db, recouped) && i < |db.ledger|
    requires db.ledger[i].claim < |db.claims| && db.ledger[i].line.kind == POA
    ensures db.claims[db.ledger[i].claim].poaType.Some?
  {
    var c := db.ledger[i].claim;
    assert ClaimFits(db.claims[c], |db.applications|);
    hide Consistent, Own, LinesOf;
    PositionFits(db.ledger, i);
    var j := Position(db.ledger, i);
    if j < |Own(db, c)| {
      OwnFirst(db, recouped, c, j);
      OwnKinds(db, recouped, c, j);
    } else {
      RecoupmentAt(db, recouped, c, j);
    }
  }

  lemma {:induction false} ReportsEachOnce(db: Database, rows: seq<LedgerRow>)
    requires forall r | r in rows ::
               |JoinRow(db, r)| == 1 && JoinRow(db, r)[0].row == r && Classify(JoinRow(db, r)[0].lineType).Some?
    ensures |Report(db, rows)| == |rows|
    ensures forall k | 0 <= k < |rows| ::
              Report(db, rows)[k].row == rows[k] && Classify(Report(db, rows)[k].lineType).Some?
  {
    hide JoinRow, Classify;
    if rows != [] {
      ReportsEachOnce(db, rows[..|rows| - 1]);
    }
  }

  lemma {:induction false} InWindowExact(rows: seq<LedgerRow>, from: int, before: int)
    ensures forall r :: r in InWindow(rows, from, before) <==> r in rows && from <= r.createdAt < before
  {
    if rows != [] {
      InWindowExact(rows[..|rows| - 1], from, before);
    }
  }

  /** After every run the report of any window has one classified row for each ledger row of the window, in order. */
  lemma EveryRunReportedOnce(applications: seq<Application>, actions: seq<Action>, from: int, before: int)
    ensures var db := After(applications, actions).db;
            var rows := InWindow(db.ledger, from, before);
            && |Report(db, rows)| == |rows|
            && (forall k | 0 <= k < |rows| ::
                  Report(db, rows)[k].row == rows[k] && Classify(Report(db, rows)[k].lineType).Some?)
  {
    EveryRunConsistent(applications, actions);
    var w := After(applications, actions);
    var db := w.db;
    assert forall r | r in db.ledger :: r.claim < |db.claims|;
    hide *;
    InWindowExact(db.ledger, from, before);
    forall r | r in InWindow(db.ledger, from, before)
      ensures |JoinRow(db, r)| == 1 && JoinRow(db, r)[0].row == r && Classify(JoinRow(db, r)[0].lineType).Some?
    {
      var i :| 0 <= i < |db.ledger| && db.ledger[i] == r;
      assert Consistent(db, w.recouped) by { InvariantConsistent(w); }
      RowReportedOnce(db, w.recouped, i);
    }
    ReportsEachOnce(db, InWindow(db.ledger, from, before));
  }

  /** After every run a recoupment row is reported under the class of its one original, with the opposite amount. */
  lemma EveryRunClassesAgree(applications: seq<Application>, actions: seq<Action>, i: nat)
    requires i < |After(applications, actions).db.ledger|
    requires After(applications, actions).db.ledger[i].line.kind == Recouped
    ensures var db := After(applications, actions).db;
            var row := db.ledger[i];
            var originals := Originals(db.ledger, row.line.number);
            && |originals| == 1 && originals[0] in db.ledger && |JoinRow(db, row)| == 1
               && JoinRow(db, originals[0]) != []
            && Classify(JoinRow(db, row)[0].lineType) == Classify(JoinRow(db, originals[0])[0].lineType)
            && row.line.amount + originals[0].line.amount == 0
  {
    EveryRunConsistent(applications, actions);
    var w := After(applications, actions);
    assert w.db.ledger[i].claim < |w.db.claims|;
    hide *;
    assert Consistent(w.db, w.recouped) by { InvariantConsistent(w); }
    RowReportedOnce(w.db, w.recouped, i);
  }

  // -------------------------------------------------------------------------- OGD

  /** The paying decisions a ledger row is joined to in the OGD costs report. */
  function PayingDecisions(decisions: seq<Decision>, c: nat): seq<Decision> {
    if decisions == [] then []
    else
      var last := decisions[|decisions| - 1];
      PayingDecisions(decisions[..|decisions| - 1], c)
      + if last.claim == c && last.status == PayInFull then [last] else []
  }

  lemma {:induction false} PayingDecisionsExact(decisions: seq<Decision>, c: nat)
    ensures forall d :: d in PayingDecisions(decisions, c) <==> d in decisions && d.claim == c && d.status == PayInFull
  {
    if decisions != [] {
      PayingDecisionsExact(decisions[..|decisions| - 1], c);
      assert decisions == decisions[..|decisions| - 1] + [decisions[|decisions| - 1]];
    }
  }

  lemma {:induction false} PayingAmongDecisions(decisions: seq<Decision>, c: nat)
    requires DecisionsOn(decisions, c) == []
             || (|DecisionsOn(decisions, c)| == 1 && DecisionsOn(decisions, c)[0].status == PayInFull)
    ensures PayingDecisions(decisions, c) == DecisionsOn(decisions, c)
  {
    if decisions != [] {
      PayingAmongDecisions(decisions[..|decisions| - 1], c);
    }
  }

  /** After every run every ledger row joins exactly one paying decision, so the OGD report never multiplies a line. */
  lemma EveryRunOgdOnce(applications: seq<Application>, actions: seq<Action>, i: nat)
    requires i < |After(applications, actions).db.ledger|
    ensures var db := After(applications, actions).db;
            |PayingDecisions(db.decisions, db.ledger[i].claim)| == 1
  {
    EveryRunConsistent(applications, actions);
    var w := After(applications, actions);
    var c := w.db.ledger[i].claim;
    assert c < |w.db.claims|;
    hide *;
    assert Consistent(w.db, w.recouped) by { InvariantConsistent(w); }
    PositionFits(w.db.ledger, i);
    RowsArePaid(w.db, w.recouped, c);
    EveryRunOneDecision(applications, actions, c);
    PayingAmongDecisions(w.db.decisions, c);
  }

  lemma RowsArePaid(db: Database, recouped: Recouped, c: nat)
    requires Consistent(db, recouped) && c < |db.claims| && LinesOf(db.ledger, c) != []
    ensures db.claims[c].status == PaidInFull
  {
    hide Consistent, LinesOf;
    if !db.claims[c].IsPaid() {
      UnpaidHasNoLines(db, recouped, c);
    }
  }
}
