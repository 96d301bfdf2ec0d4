/** How each paid line is described in the payment extract report, and what a bill comes to for each model number. */
module ReportClasses {
  import opened Options
  import opened Claims
  import opened PayInFullAmounts
  import opened PaymentExtract
  import opened Tables
  import opened Consistency
  import opened Ledger
  import opened Assessments
  import opened Runs
  import opened ExtractReport
  import opened ReportTotals
  import opened CsvStream
  import opened Payments

  /** The description and the model number a row is reported with; the first of its joined rows decides. */
  function Described(db: Database, row: LedgerRow): Option<(string, string)> {
    var rows := JoinRow(db, row);
    if rows == [] then None
    else
      match Classify(rows[0].lineType)
      case None => None
      case Some(c) => Some((Description(c), ModelNumber(c)))
  }

  /** A payment on account's rows, and those that take them back, are at 80% for profit costs. */
  function DescribedPoa(poaType: Option<POAType>): (string, string) {
    if poaType == Some(ProfitCost) then ("Profit costs (80%)", "Profit costs") else ("Expert costs", "Disbursements")
  }

  lemma BillRowDescribed(db: Database, row: LedgerRow)
    requires row.claim < |db.claims| && row.line.kind in {FinalBillFees, FinalBillDisbursement}
    ensures |JoinRow(db, row)| == 1 && JoinRow(db, row)[0].row == row
    ensures Described(db, row)
         == Some(if row.line.kind == FinalBillFees then ("Profit costs", "Profit costs")
                 else ("Expert costs", "Disbursements"))
    ensures UnderModel(JoinRow(db, row)[0].lineType, row.line.kind == FinalBillFees)
    ensures !UnderModel(JoinRow(db, row)[0].lineType, row.line.kind != FinalBillFees)
  {
  }

  lemma PoaRowDescribed(db: Database, row: LedgerRow)
    requires row.claim < |db.claims| && row.line.kind == POA && db.claims[row.claim].poaType.Some?
    ensures Described(db, row) == Some(DescribedPoa(db.claims[row.claim].poaType))
  {
  }

  lemma RecoupmentDescribed(db: Database, row: LedgerRow, original: LedgerRow)
    requires row.claim < |db.claims| && row.line.kind == Recouped
    requires Originals(db.ledger, row.line.number) == [original]
    requires original.claim < |db.claims| && db.claims[original.claim].poaType.Some?
    ensures Described(db, row) == Some(DescribedPoa(db.claims[original.claim].poaType))
  {
    assert JoinRow(db, row) == Joined(db, row, [original]);
  }

  /** After every run, how each row is described, by its kind and, for payments on account, by the kind of its claim. */
  lemma EveryRunDescribes(applications: seq<Application>, actions: seq<Action>, i: nat)
    requires i < |After(applications, actions).db.ledger|
    ensures var db := After(applications, actions).db;
            var row := db.ledger[i];
            var originals := Originals(db.ledger, row.line.number);
            && row.claim < |db.claims|
            && match row.line.kind
               case FinalBillFees => Described(db, row) == Some(("Profit costs", "Profit costs"))
               case FinalBillDisbursement => Described(db, row) == Some(("Expert costs", "Disbursements"))
               case POA => Described(db, row) == Some(DescribedPoa(db.claims[row.claim].poaType))
               case Recouped =>
                 && |originals| == 1 && originals[0].claim < |db.claims|
                 && Described(db, row) == Some(DescribedPoa(db.claims[originals[0].claim].poaType))
  {
    var w := After(applications, actions);
    EveryRunConsistent(applications, actions);
    InvariantConsistent(w);
    assert w.db.ledger[i].claim < |w.db.claims|;
    hide After, Invariant, Consistent, Described, Originals, DescribedPoa;
    match w.db.ledger[i].line.kind {
      case FinalBillFees => BillRowDescribed(w.db, w.db.ledger[i]);
      case FinalBillDisbursement => BillRowDescribed(w.db, w.db.ledger[i]);
      case POA =>
        PoaRowHasType(w.db, w.recouped, i);
        PoaRowDescribed(w.db, w.db.ledger[i]);
      case Recouped =>
        var o := OneOriginal(w.db, w.recouped, i);
        RecoupmentDescribed(w.db, w.db.ledger[i], w.db.ledger[o]);
    }
  }

  // -------------------------------------------------------------- a bill's totals

  /** A claim's rows, without those that take back others. */
  function OwnRows(ledger: seq<LedgerRow>, c: nat): seq<LedgerRow> {
    if ledger == [] then []
    else
      var last := ledger[|ledger| - 1];
      OwnRows(ledger[..|ledger| - 1], c) + if last.claim == c && last.line.kind != Recouped then [last] else []
  }

  function ModelKind(profit: bool): InvoiceType { if profit then FinalBillFees else FinalBillDisbursement }

  lemma KindSumAdds(lines: seq<Line>, line: Line, kind: InvoiceType, tax: TaxCode)
    ensures KindSum(lines + [line], kind, tax)
         == KindSum(lines, kind, tax) + if line.kind == kind && line.tax == tax then line.amount else 0
  {
    assert (lines + [line])[..|lines|] == lines;
  }

  lemma {:induction false} OwnRowsByKind(db: Database, ledger: seq<LedgerRow>, b: nat, profit: bool)
    requires b < |db.claims|
    requires forall k | 0 <= k < |ledger| && ledger[k].claim == b ::
               ledger[k].line.kind in {FinalBillFees, FinalBillDisbursement, Recouped}
    ensures var lines := LinesOf(ledger, b);
            ModelTotal(Report(db, OwnRows(ledger, b)), profit)
            == KindSum(lines, ModelKind(profit), GbVat20) + KindSum(lines, ModelKind(profit), ZeroVat)
  {
    hide JoinRow, UnderModel, ModelTotal, Report, KindSum;
    if ledger == [] {
      NothingOwned(db, b, profit);
    } else {
      var last := ledger[|ledger| - 1];
      var rows, lines := OwnRows(ledger[..|ledger| - 1], b), LinesOf(ledger[..|ledger| - 1], b);
      OwnRowsByKind(db, ledger[..|ledger| - 1], b, profit);
      if last.claim == b {
        assert LinesOf(ledger, b) == lines + [last.line];
        KindSumAdds(lines, last.line, ModelKind(profit), GbVat20);
        KindSumAdds(lines, last.line, ModelKind(profit), ZeroVat);
        if last.line.kind != Recouped {
          BillRowDescribed(db, last);
          OneMoreReported(db, rows, last, profit);
        } else {
          assert OwnRows(ledger, b) == rows;
        }
      } else {
        assert LinesOf(ledger, b) == lines && OwnRows(ledger, b) == rows;
      }
    }
  }

  lemma NothingOwned(db: Database, b: nat, profit: bool)
    ensures ModelTotal(Report(db, []), profit) == 0
    ensures forall kind, tax :: KindSum([], kind, tax) == 0
  {
  }

  lemma {:induction false} RecoupmentsAside(own: seq<Line>, rest: seq<Line>, kind: InvoiceType, tax: TaxCode)
    requires kind != Recouped && forall k | 0 <= k < |rest| :: rest[k].kind == Recouped
    ensures KindSum(own + rest, kind, tax) == KindSum(own, kind, tax)
  {
    if rest == [] {
      assert own + rest == own;
    } else {
      RecoupmentsAside(own, rest[..|rest| - 1], kind, tax);
      assert (own + rest)[..|own + rest| - 1] == own + rest[..|rest| - 1];
    }
  }

  /** The decided money is what the fees and the disbursement lines pay, if nothing decided is negative. */
  lemma DecidedByKind(claim: Claim, a: Amounts, own: seq<Line>)
    requires PaysBill(claim, a, own) && !claim.IsPoa() && Check(claim.claimType, None, a).None? && a.NonNegative()
    ensures KindSum(own, FinalBillFees, GbVat20) + KindSum(own, FinalBillFees, ZeroVat) == a.ProfitTotal()
    ensures KindSum(own, FinalBillDisbursement, GbVat20) + KindSum(own, FinalBillDisbursement, ZeroVat)
            == a.DisbursementTotal()
  {
    CheckExact(claim.claimType, None, a);
    hide Check, KindSum, DatedBy;
  }

  /** A row of a paid bill is a fee, a disbursement or a recoupment. */
  lemma BillRowKinds(ledger: seq<LedgerRow>, b: nat, n: nat)
    requires n <= |LinesOf(ledger, b)|
    requires forall k | 0 <= k < n :: LinesOf(ledger, b)[k].kind in {FinalBillFees, FinalBillDisbursement}
    requires forall k | n <= k < |LinesOf(ledger, b)| :: LinesOf(ledger, b)[k].kind == Recouped
    ensures forall i | 0 <= i < |ledger| && ledger[i].claim == b ::
              ledger[i].line.kind in {FinalBillFees, FinalBillDisbursement, Recouped}
  {
    hide LinesOf, Position;
    forall i: nat | i < |ledger| && ledger[i].claim == b
      ensures ledger[i].line.kind in {FinalBillFees, FinalBillDisbursement, Recouped}
    {
      PositionFits(ledger, i);
    }
  }

  /**
   After every run a paid bill's own report rows come, under the profit-cost model number, to the profit costs decided,
   and under the other to the disbursements decided, if nothing decided is negative.
   */
  lemma EveryRunReportsDecided(applications: seq<Application>, actions: seq<Action>, b: nat) returns (a: Amounts)
    requires var db := After(applications, actions).db;
             b < |db.claims| && !db.claims[b].IsPoa() && db.claims[b].IsPaid()
    ensures var db := After(applications, actions).db;
            && LatestDecision(db.decisions, b).Some? && LatestDecision(db.decisions, b).value.amounts == Some(a)
            && (a.NonNegative() ==>
                  && ModelTotal(Report(db, OwnRows(db.ledger, b)), true) == a.ProfitTotal()
                  && ModelTotal(Report(db, OwnRows(db.ledger, b)), false) == a.DisbursementTotal())
  {
    hide After, Check, PaysBill, LinesOf, KindSum, OwnRows, Report, ModelTotal;
    var n: nat;
    a, n := EveryRunPaysBills(applications, actions, b);
    var db := After(applications, actions).db;
    var lines := LinesOf(db.ledger, b);
    BillKinds(db.claims[b], a, lines[..n]);
    forall k | 0 <= k < n
      ensures lines[k].kind in {FinalBillFees, FinalBillDisbursement}
    {
      assert lines[..n][k] == lines[k];
    }
    BillRowKinds(db.ledger, b, n);
    assert lines == lines[..n] + lines[n..];
    forall kind: InvoiceType, tax: TaxCode | kind != Recouped
      ensures KindSum(lines, kind, tax) == KindSum(lines[..n], kind, tax)
    {
      RecoupmentsAside(lines[..n], lines[n..], kind, tax);
    }
    OwnRowsByKind(db, db.ledger, b, true);
    OwnRowsByKind(db, db.ledger, b, false);
    if a.NonNegative() {
      DecidedByKind(db.claims[b], a, lines[..n]);
    }
  }

  lemma BillKinds(claim: Claim, a: Amounts, own: seq<Line>)
    requires PaysBill(claim, a, own)
    ensures forall k | 0 <= k < |own| :: own[k].kind in {FinalBillFees, FinalBillDisbursement}
  {
  }
}
