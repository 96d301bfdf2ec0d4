/** What every paid claim's lines come to after a run, from the amounts it was decided with. */
module Payments {
  import opened Options
  import opened Claims
  import opened PayInFullAmounts
  import opened PaymentExtract
  import opened Tables
  import opened Consistency
  import opened Ledger
  import opened Assessments
  import opened Runs

  /** The amounts a paid claim was decided with. */
  lemma DecidedWith(db: Database, recouped: Recouped, c: nat) returns (a: Amounts)
    requires Consistent(db, recouped) && c < |db.claims| && db.claims[c].IsPaid()
    ensures LatestDecision(db.decisions, c).Some? && LatestDecision(db.decisions, c).value.amounts == Some(a)
    ensures Payable(db.claims[c], a)
    ensures db.claims[c].IsPoa() <==> db.claims[c].poaType.Some?
    ensures Own(db, c)
         == if db.claims[c].IsPoa() then PoaLines(db.claims[c], a).GetOr([]) else BillLines(db.claims[c], a)
  {
    assert StatusFits(db.claims[c], LatestDecision(db.decisions, c));
    assert ClaimFits(db.claims[c], |db.applications|);
    a := LatestDecision(db.decisions, c).value.amounts.value;
  }

  /**
   After every run each paid payment on account has just the lines that pay the amounts it was decided with; a profit
   cost without a net and a zero-rated amount has none.
   */
  lemma EveryRunPaysPoas(applications: seq<Application>, actions: seq<Action>, c: nat) returns (a: Amounts)
    requires var db := After(applications, actions).db;
             c < |db.claims| && db.claims[c].IsPoa() && db.claims[c].IsPaid()
    ensures var db := After(applications, actions).db;
            && LatestDecision(db.decisions, c).Some? && LatestDecision(db.decisions, c).value.amounts == Some(a)
            && if db.claims[c].poaType == Some(ProfitCost) && a.profitNet.None? && a.profitVatZero.None?
               then LinesOf(db.ledger, c) == []
               else PaysPoa(db.claims[c], a, LinesOf(db.ledger, c))
  {
    var w := After(applications, actions);
    EveryRunConsistent(applications, actions);
    InvariantConsistent(w);
    hide After, Invariant, Consistent, PoaLines, PaysPoa, Own, LinesOf, LatestDecision;
    a := DecidedWith(w.db, w.recouped, c);
    LinesSplit(w.db, w.recouped, c);
    PoaLinesExact(w.db.claims[c], a);
  }

  /**
   After every run each paid bill has the lines that pay the amounts it was decided with, and after them nothing but
   recoupments.
   */
  lemma EveryRunPaysBills(applications: seq<Application>, actions: seq<Action>, b: nat) returns (a: Amounts, n: nat)
    requires var db := After(applications, actions).db;
             b < |db.claims| && !db.claims[b].IsPoa() && db.claims[b].IsPaid()
    ensures var db := After(applications, actions).db;
            var lines := LinesOf(db.ledger, b);
            && LatestDecision(db.decisions, b).Some? && LatestDecision(db.decisions, b).value.amounts == Some(a)
            && Check(db.claims[b].claimType, None, a).None?
            && n <= |lines| && PaysBill(db.claims[b], a, lines[..n])
            && forall k | n <= k < |lines| :: lines[k].kind == Recouped
  {
    var w := After(applications, actions);
    EveryRunConsistent(applications, actions);
    InvariantConsistent(w);
    hide After, Invariant, Consistent, BillLines, PaysBill, Own, LinesOf, LatestDecision, Check;
    a := DecidedWith(w.db, w.recouped, b);
    LinesSplit(w.db, w.recouped, b);
    BillLinesExact(w.db.claims[b], a);
    n := |Own(w.db, b)|;
    var lines := LinesOf(w.db.ledger, b);
    assert lines[..n] == Own(w.db, b);
    forall k: nat | n <= k < |lines|
      ensures lines[k].kind == Recouped
    {
      RecoupmentAt(w.db, w.recouped, b, k);
    }
  }
}
