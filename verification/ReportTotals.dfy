/** What the payment extract report comes to for each model number: a bill's recoupments cancel what they take back. */
module ReportTotals {
  import opened Options
  import opened Claims
  import opened PaymentExtract
  import opened Tables
  import opened Consistency
  import opened Ledger
  import opened Assessments
  import opened Runs
  import opened ExtractReport

  /** The report rows of one model number: profit costs, or else disbursements. */
  function ModelTotal(rows: seq<ReportRow>, profit: bool): int {
    if rows == [] then 0
    else
      var last := rows[|rows| - 1];
      ModelTotal(rows[..|rows| - 1], profit) + if UnderModel(last.lineType, profit) then last.row.line.amount else 0
  }

  predicate UnderModel(t: LineType, profit: bool) {
    Classify(t).Some? && Classify(t).value.IsProfitCosts() == profit
  }

  /** An application's recoupment rows. */
  function RecoupmentRows(ledger: seq<LedgerRow>, claims: seq<Claim>, app: nat): seq<LedgerRow> {
    if ledger == [] then []
    else
      var last := ledger[|ledger| - 1];
      RecoupmentRows(ledger[..|ledger| - 1], claims, app)
      + if last.line.kind == Recouped && last.claim < |claims| && claims[last.claim].app == app then [last] else []
  }

  /** The rows of the given claims. */
  function RowsOf(ledger: seq<LedgerRow>, ids: seq<nat>): seq<LedgerRow> {
    if ledger == [] then []
    else
      var last := ledger[|ledger| - 1];
      RowsOf(ledger[..|ledger| - 1], ids) + if last.claim in ids then [last] else []
  }

  predicate IsProfitClaim(claims: seq<Claim>, p: nat) { p < |claims| && claims[p].poaType == Some(ProfitCost) }

  // ----------------------------------------------------------- the rows taken back

  /** The rows of the given claims that are of one model number, by the kind of their claim. */
  function OriginalTotal(claims: seq<Claim>, ledger: seq<LedgerRow>, ids: seq<nat>, profit: bool): int {
    if ledger == [] then 0
    else
      var last := ledger[|ledger| - 1];
      OriginalTotal(claims, ledger[..|ledger| - 1], ids, profit)
      + if last.claim in ids && IsProfitClaim(claims, last.claim) == profit then last.line.amount else 0
  }

  /** The same, claim by claim. */
  function ClaimTotal(claims: seq<Claim>, ledger: seq<LedgerRow>, ids: seq<nat>, profit: bool): int {
    if ids == [] then 0
    else
      var last := ids[|ids| - 1];
      ClaimTotal(claims, ledger, ids[..|ids| - 1], profit)
      + if IsProfitClaim(claims, last) == profit then Sum(LinesOf(ledger, last)) else 0
  }

  lemma {:induction false} OneMoreClaim(claims: seq<Claim>, ledger: seq<LedgerRow>, ids: seq<nat>, p: nat, profit: bool)
    requires p !in ids
    ensures OriginalTotal(claims, ledger, ids + [p], profit)
         == OriginalTotal(claims, ledger, ids, profit)
            + if IsProfitClaim(claims, p) == profit then Sum(LinesOf(ledger, p)) else 0
  {
    if ledger != [] {
      var last := ledger[|ledger| - 1];
      OneMoreClaim(claims, ledger[..|ledger| - 1], ids, p, profit);
      var lines := LinesOf(ledger[..|ledger| - 1], p);
      assert (lines + [last.line])[..|lines|] == lines;
      assert lines + [] == lines;
    }
  }

  lemma {:induction false} NoClaims(claims: seq<Claim>, ledger: seq<LedgerRow>, profit: bool)
    ensures OriginalTotal(claims, ledger, [], profit) == 0
  {
    if ledger != [] {
      NoClaims(claims, ledger[..|ledger| - 1], profit);
    }
  }

  lemma {:induction false} TotalByClaim(claims: seq<Claim>, ledger: seq<LedgerRow>, ids: seq<nat>, profit: bool)
    requires Ascending(ids)
    ensures OriginalTotal(claims, ledger, ids, profit) == ClaimTotal(claims, ledger, ids, profit)
  {
    hide LinesOf, OriginalTotal;
    if ids == [] {
      NoClaims(claims, ledger, profit);
    } else {
      var last := |ids| - 1;
      TotalByClaim(claims, ledger, ids[..last], profit);
      OneMoreClaim(claims, ledger, ids[..last], ids[last], profit);
      assert ids == ids[..last] + [ids[last]];
    }
  }

  /** The first n sources of a recoupment that are of one model number. */
  function SourceTotal(claims: seq<Claim>, ledger: seq<LedgerRow>, ids: seq<nat>, n: nat, profit: bool): int
    requires n <= |Sources(ledger, ids)|
  {
    if n == 0 then 0
    else
      SourceTotal(claims, ledger, ids, n - 1, profit)
      + if IsProfitClaim(claims, SourceAt(ledger, ids, n - 1).0) == profit
        then Sources(ledger, ids)[n - 1].amount else 0
  }

  /** The sources of all claims but the last come first. */
  lemma EarlierSource(ledger: seq<LedgerRow>, ids: seq<nat>, k: nat)
    requires ids != [] && k < |Sources(ledger, ids[..|ids| - 1])|
    ensures k < |Sources(ledger, ids)|
    ensures SourceAt(ledger, ids, k) == SourceAt(ledger, ids[..|ids| - 1], k)
    ensures Sources(ledger, ids)[k] == Sources(ledger, ids[..|ids| - 1])[k]
  {
    hide LinesOf;
  }

  lemma LastSource(ledger: seq<LedgerRow>, ids: seq<nat>, k: nat)
    requires ids != [] && k < |LinesOf(ledger, ids[|ids| - 1])|
    ensures var before := |Sources(ledger, ids[..|ids| - 1])|;
            && before + k < |Sources(ledger, ids)|
            && SourceAt(ledger, ids, before + k) == (ids[|ids| - 1], k)
            && Sources(ledger, ids)[before + k] == LinesOf(ledger, ids[|ids| - 1])[k]
  {
    hide LinesOf;
  }

  lemma SourcesLength(ledger: seq<LedgerRow>, ids: seq<nat>)
    requires ids != []
    ensures |Sources(ledger, ids)| == |Sources(ledger, ids[..|ids| - 1])| + |LinesOf(ledger, ids[|ids| - 1])|
  {
    hide LinesOf;
  }

  lemma {:induction false} FewerClaims(claims: seq<Claim>, ledger: seq<LedgerRow>, ids: seq<nat>, n: nat, profit: bool)
    requires ids != [] && n <= |Sources(ledger, ids[..|ids| - 1])| <= |Sources(ledger, ids)|
    ensures SourceTotal(claims, ledger, ids, n, profit) == SourceTotal(claims, ledger, ids[..|ids| - 1], n, profit)
  {
    hide Sources, SourceAt, IsProfitClaim;
    if n > 0 {
      EarlierSource(ledger, ids, n - 1);
      FewerClaims(claims, ledger, ids, n - 1, profit);
    }
  }

  lemma {:induction false} LastClaim(claims: seq<Claim>, ledger: seq<LedgerRow>, ids: seq<nat>, k: nat, profit: bool)
    requires ids != [] && k <= |LinesOf(ledger, ids[|ids| - 1])|
    requires |Sources(ledger, ids)| == |Sources(ledger, ids[..|ids| - 1])| + |LinesOf(ledger, ids[|ids| - 1])|
    ensures var earlier, last := ids[..|ids| - 1], ids[|ids| - 1];
            SourceTotal(claims, ledger, ids, |Sources(ledger, earlier)| + k, profit)
            == SourceTotal(claims, ledger, earlier, |Sources(ledger, earlier)|, profit)
               + if IsProfitClaim(claims, last) == profit then Sum(LinesOf(ledger, last)[..k]) else 0
  {
    hide LinesOf, Sources, SourceAt, IsProfitClaim;
    var before, lines := |Sources(ledger, ids[..|ids| - 1])|, LinesOf(ledger, ids[|ids| - 1]);
    if k == 0 {
      FewerClaims(claims, ledger, ids, before, profit);
    } else {
      LastClaim(claims, ledger, ids, k - 1, profit);
      LastSource(ledger, ids, k - 1);
      assert lines[..k][..k - 1] == lines[..k - 1];
    }
  }

  lemma {:induction false} SourcesByClaim(claims: seq<Claim>, ledger: seq<LedgerRow>, ids: seq<nat>, profit: bool)
    ensures SourceTotal(claims, ledger, ids, |Sources(ledger, ids)|, profit) == ClaimTotal(claims, ledger, ids, profit)
  {
    hide LinesOf, SourceAt;
    if ids != [] {
      var lines := LinesOf(ledger, ids[|ids| - 1]);
      SourcesLength(ledger, ids);
      SourcesByClaim(claims, ledger, ids[..|ids| - 1], profit);
      LastClaim(claims, ledger, ids, |lines|, profit);
      assert lines[..|lines|] == lines;
    }
  }

  // ---------------------------------------------------------------- the recoupments

  /** The type a claim's line is reported with, however often its row is joined. */
  predicate Reports(db: Database, c: nat, line: Line, profit: bool) {
    var rows := JoinRow(db, LedgerRow(c, line, 0));
    rows != [] && UnderModel(rows[0].lineType, profit)
  }

  /** The recoupment lines among a claim's lines that are reported under one model number. */
  function LineTotal(db: Database, c: nat, lines: seq<Line>, profit: bool): int {
    if lines == [] then 0
    else
      var last := lines[|lines| - 1];
      LineTotal(db, c, lines[..|lines| - 1], profit)
      + if last.kind == Recouped && Reports(db, c, last, profit) then last.amount else 0
  }

  lemma {:induction false} LineTotalConcat(db: Database, c: nat, a: seq<Line>, b: seq<Line>, profit: bool)
    ensures LineTotal(db, c, a + b, profit) == LineTotal(db, c, a, profit) + LineTotal(db, c, b, profit)
  {
    hide Reports;
    if b == [] {
      assert a + b == a;
    } else {
      assert (a + b)[..|a + b| - 1] == a + b[..|b| - 1];
      LineTotalConcat(db, c, a, b[..|b| - 1], profit);
    }
  }

  lemma {:induction false} NoRecoupments(db: Database, c: nat, lines: seq<Line>, profit: bool)
    requires forall k | 0 <= k < |lines| :: lines[k].kind != Recouped
    ensures LineTotal(db, c, lines, profit) == 0
  {
    if lines != [] {
      NoRecoupments(db, c, lines[..|lines| - 1], profit);
    }
  }

  /** The recoupment rows of one claim. */
  function RecoupmentRowsOf(ledger: seq<LedgerRow>, b: nat): seq<LedgerRow> {
    if ledger == [] then []
    else
      var last := ledger[|ledger| - 1];
      RecoupmentRowsOf(ledger[..|ledger| - 1], b) + if last.line.kind == Recouped && last.claim == b then [last] else []
  }

  lemma {:induction false} OneBillRecoups(ledger: seq<LedgerRow>, claims: seq<Claim>, app: nat, b: nat)
    requires forall r | r in ledger && r.line.kind == Recouped ::
               r.claim == b <==> r.claim < |claims| && claims[r.claim].app == app
    ensures RecoupmentRows(ledger, claims, app) == RecoupmentRowsOf(ledger, b)
  {
    if ledger != [] {
      OneBillRecoups(ledger[..|ledger| - 1], claims, app, b);
    }
  }

  lemma ReportedLike(db: Database, row: LedgerRow, profit: bool)
    requires |JoinRow(db, row)| == 1
    ensures UnderModel(JoinRow(db, row)[0].lineType, profit) == Reports(db, row.claim, row.line, profit)
  {
    hide UnderModel, Originals;
  }

  lemma {:induction false} ReportedRecoupments(db: Database, ledger: seq<LedgerRow>, b: nat, profit: bool)
    requires forall r | r in ledger :: |JoinRow(db, r)| == 1 && JoinRow(db, r)[0].row == r
    ensures ModelTotal(Report(db, RecoupmentRowsOf(ledger, b)), profit) == LineTotal(db, b, LinesOf(ledger, b), profit)
  {
    hide JoinRow, UnderModel, Reports, ModelTotal, Report, LineTotal;
    if ledger == [] {
      NothingReported(db, b, profit);
    } else {
      var last := ledger[|ledger| - 1];
      var rows, lines := RecoupmentRowsOf(ledger[..|ledger| - 1], b), LinesOf(ledger[..|ledger| - 1], b);
      ReportedRecoupments(db, ledger[..|ledger| - 1], b, profit);
      if last.claim == b {
        assert LinesOf(ledger, b) == lines + [last.line];
        OneMoreLine(db, b, lines, last.line, profit);
        if last.line.kind == Recouped {
          assert RecoupmentRowsOf(ledger, b) == rows + [last];
          OneMoreReported(db, rows, last, profit);
          ReportedLike(db, last, profit);
        } else {
          assert RecoupmentRowsOf(ledger, b) == rows;
        }
      } else {
        assert LinesOf(ledger, b) == lines && RecoupmentRowsOf(ledger, b) == rows;
      }
    }
  }

  lemma NothingReported(db: Database, b: nat, profit: bool)
    ensures ModelTotal(Report(db, []), profit) == 0 && LineTotal(db, b, [], profit) == 0
  {
  }

  lemma OneMoreLine(db: Database, c: nat, lines: seq<Line>, line: Line, profit: bool)
    ensures LineTotal(db, c, lines + [line], profit)
         == LineTotal(db, c, lines, profit)
            + if line.kind == Recouped && Reports(db, c, line, profit) then line.amount else 0
  {
    hide Reports;
    assert (lines + [line])[..|lines|] == lines;
  }

  lemma OneMoreReported(db: Database, rows: seq<LedgerRow>, row: LedgerRow, profit: bool)
    requires |JoinRow(db, row)| == 1 && JoinRow(db, row)[0].row == row
    ensures ModelTotal(Report(db, rows + [row]), profit)
         == ModelTotal(Report(db, rows), profit)
            + if UnderModel(JoinRow(db, row)[0].lineType, profit) then row.line.amount else 0
  {
    hide JoinRow, UnderModel;
    assert (rows + [row])[..|rows|] == rows;
    var report := Report(db, rows + [row]);
    assert report == Report(db, rows) + JoinRow(db, row);
    assert report[..|report| - 1] == Report(db, rows);
  }

  /** A recoupment line is reported under the model number of the claim it takes back. */
  lemma RecoupmentModel(db: Database, recouped: Recouped, b: nat, j: nat, profit: bool)
    requires Consistent(db, recouped) && b < |db.claims| && |Own(db, b)| <= j < |LinesOf(db.ledger, b)|
    ensures b in recouped && j - |Own(db, b)| < |Sources(db.ledger, recouped[b])|
    ensures LinesOf(db.ledger, b)[j].kind == Recouped
    ensures Reports(db, b, LinesOf(db.ledger, b)[j], profit)
         == (IsProfitClaim(db.claims, SourceAt(db.ledger, recouped[b], j - |Own(db, b)|).0) == profit)
  {
    hide *;
    var line := LinesOf(db.ledger, b)[j];
    RecoupmentAt(db, recouped, b, j);
    var o := OriginalOfLine(db, recouped, b, j);
    ModelOfOriginal(db, b, line, db.ledger[o], profit);
  }

  lemma ModelOfOriginal(db: Database, b: nat, line: Line, original: LedgerRow, profit: bool)
    requires b < |db.claims| && line.kind == Recouped && Originals(db.ledger, line.number) == [original]
    requires original.claim < |db.claims| && db.claims[original.claim].poaType.Some?
    ensures Reports(db, b, line, profit) == (IsProfitClaim(db.claims, original.claim) == profit)
  {
    assert JoinRow(db, LedgerRow(b, line, 0)) == Joined(db, LedgerRow(b, line, 0), [original]);
  }

  lemma {:induction false} RecoupmentsBySource(db: Database, recouped: Recouped, b: nat, n: nat, profit: bool)
    requires Consistent(db, recouped) && b < |db.claims| && b in recouped
    requires n <= |Sources(db.ledger, recouped[b])|
    ensures var lines := RecoupmentLines(|Own(db, b)| + 1, DecidedDay(db, b), Sources(db.ledger, recouped[b]));
            LineTotal(db, b, lines[..n], profit) == -SourceTotal(db.claims, db.ledger, recouped[b], n, profit)
  {
    hide Consistent, Own, LinesOf, Sources, Reports;
    var sources := Sources(db.ledger, recouped[b]);
    var lines := RecoupmentLines(|Own(db, b)| + 1, DecidedDay(db, b), sources);
    if n > 0 {
      RecoupmentsBySource(db, recouped, b, n - 1, profit);
      LinesSplit(db, recouped, b);
      RecoupedIs(db, recouped, b);
      RecoupmentModel(db, recouped, b, |Own(db, b)| + n - 1, profit);
      assert LinesOf(db.ledger, b)[|Own(db, b)| + n - 1] == lines[n - 1];
      assert lines[..n][..n - 1] == lines[..n - 1];
    }
  }

  lemma RecoupmentTotal(db: Database, recouped: Recouped, b: nat, profit: bool)
    requires Consistent(db, recouped) && b < |db.claims| && b in recouped
    ensures LineTotal(db, b, LinesOf(db.ledger, b), profit) == -ClaimTotal(db.claims, db.ledger, recouped[b], profit)
  {
    hide Consistent, Own, LinesOf, Sources, Reports;
    var sources := Sources(db.ledger, recouped[b]);
    var lines := RecoupmentLines(|Own(db, b)| + 1, DecidedDay(db, b), sources);
    LinesSplit(db, recouped, b);
    RecoupedIs(db, recouped, b);
    LineTotalConcat(db, b, Own(db, b), lines, profit);
    forall k | 0 <= k < |Own(db, b)|
      ensures Own(db, b)[k].kind != Recouped
    {
      OwnKinds(db, recouped, b, k);
    }
    NoRecoupments(db, b, Own(db, b), profit);
    RecoupmentsBySource(db, recouped, b, |sources|, profit);
    assert lines[..|sources|] == lines;
    SourcesByClaim(db.claims, db.ledger, recouped[b], profit);
  }

  // -------------------------------------------------------------------- the originals

  lemma PoaModel(db: Database, recouped: Recouped, i: nat, profit: bool)
    requires Consistent(db, recouped) && i < |db.ledger|
    requires db.ledger[i].claim < |db.claims| && db.claims[db.ledger[i].claim].IsPoa()
    ensures |JoinRow(db, db.ledger[i])| == 1
    ensures UnderModel(JoinRow(db, db.ledger[i])[0].lineType, profit)
            == (IsProfitClaim(db.claims, db.ledger[i].claim) == profit)
  {
    var c, j := db.ledger[i].claim, Position(db.ledger, i);
    PositionFits(db.ledger, i);
    PoaKind(db, recouped, c, j);
    hide Consistent, LinesOf, Position;
    PoaRowHasType(db, recouped, i);
  }

  lemma PoaKind(db: Database, recouped: Recouped, c: nat, j: nat)
    requires Consistent(db, recouped) && c < |db.claims| && db.claims[c].IsPoa() && j < |LinesOf(db.ledger, c)|
    ensures LinesOf(db.ledger, c)[j].kind == POA
  {
    hide Consistent, Own, LinesOf;
    LinesSplit(db, recouped, c);
    OwnKinds(db, recouped, c, j);
  }

  lemma {:induction false} ReportedOriginals(db: Database, ledger: seq<LedgerRow>, ids: seq<nat>, profit: bool)
    requires forall r | r in ledger && r.claim in ids ::
               && |JoinRow(db, r)| == 1 && JoinRow(db, r)[0].row == r
               && UnderModel(JoinRow(db, r)[0].lineType, profit) == (IsProfitClaim(db.claims, r.claim) == profit)
    ensures ModelTotal(Report(db, RowsOf(ledger, ids)), profit) == OriginalTotal(db.claims, ledger, ids, profit)
  {
    hide JoinRow, UnderModel, IsProfitClaim;
    if ledger != [] {
      var last := ledger[|ledger| - 1];
      var rows := RowsOf(ledger[..|ledger| - 1], ids);
      ReportedOriginals(db, ledger[..|ledger| - 1], ids, profit);
      assert rows + [] == rows;
      if last.claim in ids {
        OneMoreReported(db, rows, last, profit);
      }
    }
  }

  // -------------------------------------------------------------------- main result

  /**
   For each model number a bill's application reports recoupments of minus what is reported for the claims recouped.
   */
  lemma RecoupmentsCancel(db: Database, recouped: Recouped, b: nat, profit: bool)
    requires Consistent(db, recouped) && b < |db.claims| && b in recouped
    ensures ModelTotal(Report(db, RecoupmentRows(db.ledger, db.claims, db.claims[b].app)), profit)
         == -ModelTotal(Report(db, RowsOf(db.ledger, recouped[b])), profit)
  {
    hide *;
    var ids := recouped[b];
    RecoupedFits(db, recouped, b);
    forall r | r in db.ledger
      ensures |JoinRow(db, r)| == 1 && JoinRow(db, r)[0].row == r
      ensures r.line.kind == Recouped ==>
                (r.claim == b <==> r.claim < |db.claims| && db.claims[r.claim].app == db.claims[b].app)
      ensures r.claim in ids ==>
                UnderModel(JoinRow(db, r)[0].lineType, profit) == (IsProfitClaim(db.claims, r.claim) == profit)
    {
      var i :| 0 <= i < |db.ledger| && db.ledger[i] == r;
      RowOfTheReport(db, recouped, b, i, profit);
    }
    OneBillRecoups(db.ledger, db.claims, db.claims[b].app, b);
    ReportedRecoupments(db, db.ledger, b, profit);
    RecoupmentTotal(db, recouped, b, profit);
    ReportedOriginals(db, db.ledger, ids, profit);
    TotalByClaim(db.claims, db.ledger, ids, profit);
  }

  lemma RowOfTheReport(db: Database, recouped: Recouped, b: nat, i: nat, profit: bool)
    requires Consistent(db, recouped) && b < |db.claims| && b in recouped && i < |db.ledger|
    ensures var r := db.ledger[i];
            && r.claim < |db.claims|
            && |JoinRow(db, r)| == 1 && JoinRow(db, r)[0].row == r
            && (r.line.kind == Recouped ==> (r.claim == b <==> db.claims[r.claim].app == db.claims[b].app))
            && (r.claim in recouped[b] ==>
                  UnderModel(JoinRow(db, r)[0].lineType, profit) == (IsProfitClaim(db.claims, r.claim) == profit))
  {
    assert db.ledger[i].claim < |db.claims|;
    hide Consistent, JoinRow, UnderModel, LinesOf;
    RowReportedOnce(db, recouped, i);
    RecoupedFits(db, recouped, b);
    if db.ledger[i].line.kind == Recouped {
      RecoupsFor(db, recouped, i);
      if db.claims[db.ledger[i].claim].app == db.claims[b].app {
        RecoupedFits(db, recouped, db.ledger[i].claim);
        OnePaidBill(db, recouped, b, db.ledger[i].claim);
      }
    }
    if db.ledger[i].claim in recouped[b] {
      PoaModel(db, recouped, i, profit);
    }
  }

  /** A recoupment row belongs to a paid bill. */
  lemma RecoupsFor(db: Database, recouped: Recouped, i: nat)
    requires Consistent(db, recouped) && i < |db.ledger|
    requires db.ledger[i].claim < |db.claims| && db.ledger[i].line.kind == Recouped
    ensures db.ledger[i].claim in recouped
  {
    hide Consistent, Own, LinesOf;
    var c, j := db.ledger[i].claim, Position(db.ledger, i);
    PositionFits(db.ledger, i);
    if j < |Own(db, c)| {
      OwnFirst(db, recouped, c, j);
      OwnKinds(db, recouped, c, j);
    } else {
      RecoupmentAt(db, recouped, c, j);
    }
  }

  /**
   After every run, for each paid bill and each model number, the recoupment rows of its application's report come to
   minus the rows of the payments on account the bill recouped.
   */
  lemma EveryRunCancels(applications: seq<Application>, actions: seq<Action>, b: nat, profit: bool)
    requires b in After(applications, actions).recouped
    ensures var w := After(applications, actions);
            && b < |w.db.claims|
            && ModelTotal(Report(w.db, RecoupmentRows(w.db.ledger, w.db.claims, w.db.claims[b].app)), profit)
               + ModelTotal(Report(w.db, RowsOf(w.db.ledger, w.recouped[b])), profit) == 0
  {
    EveryRunConsistent(applications, actions);
    var w := After(applications, actions);
    hide *;
    assert Consistent(w.db, w.recouped) by { InvariantConsistent(w); }
    RecoupedFits(w.db, w.recouped, b);
    RecoupmentsCancel(w.db, w.recouped, b, profit);
  }
}
