/** Reports of consecutive windows, read at two points of one run. */
module ReportWindows {
  import opened Claims
  import opened Tables
  import opened Assessments
  import opened Runs
  import opened Submissions
  import opened ExtractReport

  /** How often a report lists a ledger row. */
  function Listings(report: seq<ReportRow>, row: LedgerRow): nat {
    if report == [] then 0
    else
      var last := |report| - 1;
      Listings(report[..last], row) + if report[last].row == row then 1 else 0
  }

  function WindowReport(db: Database, from: int, before: int): seq<ReportRow> {
    Report(db, InWindow(db.ledger, from, before))
  }

  // ------------------------------------------------------------- the ledger only grows

  lemma StepKeepsRows(w: World, action: Action)
    ensures w.db.ledger <= Apply(w, action).db.ledger
  {
    hide Submitting, Lock, PaymentLines, Rows, Recoupable;
    if action.SubmitClaim? {
      SubmissionKeepsRows(w.db, action.submission, action.env);
    }
  }

  lemma SubmissionKeepsRows(db: Database, s: Submission, env: SubmitEnv)
    ensures db.ledger <= Submitting(db, s, env).ledger
  {
    hide *;
    SubmissionAdds(db, s, env);
  }

  lemma {:induction false} RunKeepsRows(applications: seq<Application>, actions: seq<Action>, i: nat)
    requires i <= |actions|
    ensures After(applications, actions[..i]).db.ledger <= After(applications, actions).db.ledger
  {
    if i == |actions| {
      assert actions[..i] == actions;
    } else {
      hide Apply;
      var last := |actions| - 1;
      RunKeepsRows(applications, actions[..last], i);
      assert actions[..last][..i] == actions[..i];
      StepKeepsRows(After(applications, actions[..last]), actions[last]);
    }
  }

  // --------------------------------------------------------------------- listings

  lemma {:induction false} ListingsCount(report: seq<ReportRow>, rows: seq<LedgerRow>, row: LedgerRow)
    requires |report| == |rows| && forall k | 0 <= k < |rows| :: report[k].row == rows[k]
    ensures Listings(report, row) == multiset(rows)[row]
  {
    if rows != [] {
      var last := |rows| - 1;
      ListingsCount(report[..last], rows[..last], row);
      assert rows == rows[..last] + [rows[last]];
    }
  }

  lemma {:induction false} InWindowCount(rows: seq<LedgerRow>, from: int, before: int, row: LedgerRow)
    ensures multiset(InWindow(rows, from, before))[row]
            == if from <= row.createdAt < before then multiset(rows)[row] else 0
  {
    if rows != [] {
      var last := |rows| - 1;
      InWindowCount(rows[..last], from, before, row);
      assert rows == rows[..last] + [rows[last]];
    }
  }

  lemma {:induction false} DistinctCount(ledger: seq<LedgerRow>, row: LedgerRow)
    requires forall i, j | 0 <= i < j < |ledger| :: ledger[i].line.number != ledger[j].line.number
    ensures multiset(ledger)[row] == if row in ledger then 1 else 0
  {
    if ledger != [] {
      var last := |ledger| - 1;
      DistinctCount(ledger[..last], row);
      assert ledger == ledger[..last] + [ledger[last]];
    }
  }

  /** After every run the report of a window lists a row of the ledger stamped within it once, and no other. */
  lemma ListedOnce(applications: seq<Application>, actions: seq<Action>, from: int, before: int, row: LedgerRow)
    ensures var db := After(applications, actions).db;
            Listings(WindowReport(db, from, before), row)
            == if from <= row.createdAt < before && row in db.ledger then 1 else 0
  {
    hide After, Report, InWindow;
    var db := After(applications, actions).db;
    EveryRunReportedOnce(applications, actions, from, before);
    ListingsCount(WindowReport(db, from, before), InWindow(db.ledger, from, before), row);
    InWindowCount(db.ledger, from, before, row);
    EveryRunUnique(applications, actions);
    DistinctCount(db.ledger, row);
  }

  /**
   Of a window read during a run and the next window read at its end, a row of the final ledger is listed once if it is
   stamped in the second, or in the first and was committed when that was read. Otherwise it is in neither.
   */
  lemma ConsecutiveWindows(applications: seq<Application>, actions: seq<Action>, i: nat, from: int, middle: int,
                           before: int, row: LedgerRow)
    requires i <= |actions| && from <= middle <= before
    requires row in After(applications, actions).db.ledger
    ensures var first, second := After(applications, actions[..i]).db, After(applications, actions).db;
            Listings(WindowReport(first, from, middle), row) + Listings(WindowReport(second, middle, before), row)
            == if || middle <= row.createdAt < before
                  || (from <= row.createdAt < middle && row in first.ledger)
               then 1 else 0
    ensures After(applications, actions[..i]).db.ledger <= After(applications, actions).db.ledger
  {
    hide After, WindowReport;
    ListedOnce(applications, actions[..i], from, middle, row);
    ListedOnce(applications, actions, middle, before, row);
    RunKeepsRows(applications, actions, i);
  }
}
