/** The history behind a paid bill: when it read the payments on account, when it committed, and what that left. */
module Histories {
  import opened InvoiceNumbers
  import opened Claims
  import opened PaymentExtract
  import opened Tables
  import opened Consistency
  import opened Ledger
  import opened Assessments
  import opened Runs

  /** A paid payment on account of an application. */
  predicate PaidPoa(claims: seq<Claim>, app: nat, p: nat) {
    p < |claims| && IsRecoupable(claims[p], app)
  }

  /** The claims committed before step i of a run. */
  function ClaimsAt(applications: seq<Application>, actions: seq<Action>, i: nat): seq<Claim>
    requires i <= |actions|
  {
    After(applications, actions[..i]).db.claims
  }

  /**
   At step i transaction `tx`, not past its read, reads the claims for claim b, still submitted, and sees just the
   payments paid by then.
   */
  ghost predicate ReadsAt(applications: seq<Application>, actions: seq<Action>, i: nat, tx: nat, b: nat,
                          seen: seq<nat>) {
    && i < |actions| && actions[i] == ReadClaims(tx)
    && var w := After(applications, actions[..i]);
       && tx in w.txs && w.txs[tx].phase.Held? && w.txs[tx].claim == b
       && b < |w.db.claims| && w.db.claims[b].status == Submitted
       && forall p: nat :: p in seen <==> p != b && PaidPoa(w.db.claims, w.db.claims[b].app, p)
  }

  /**
   Bill b is paid by the commit at step j of the transaction that read the claims at step i, and recouped what it saw.
   */
  ghost predicate PaidThrough(applications: seq<Application>, actions: seq<Action>, b: nat, i: nat, j: nat, tx: nat) {
    && i < j < |actions| && actions[j] == Commit(tx)
    && b in After(applications, actions).recouped
    && ReadsAt(applications, actions, i, tx, b, After(applications, actions).recouped[b])
    && b < |ClaimsAt(applications, actions, j)| && ClaimsAt(applications, actions, j)[b].status == Submitted
    && b < |ClaimsAt(applications, actions, j + 1)| && ClaimsAt(applications, actions, j + 1)[b].IsPaid()
  }

  // -------------------------------------------------------------------- one step

  /** A transaction past its read has just read, or was past it before with the same claim and view. */
  lemma StepKeepsView(w: World, action: Action, tx: nat)
    requires tx in Apply(w, action).txs && !Apply(w, action).txs[tx].phase.Held?
    ensures var t := Apply(w, action).txs[tx];
            && tx in w.txs && w.txs[tx].claim == t.claim
            && if w.txs[tx].phase.Held?
               then action == ReadClaims(tx) && t.claim < |w.db.claims|
                    && t.phase.seen == Recoupable(w.db.claims, w.db.claims[t.claim].app, t.claim)
               else w.txs[tx].phase.seen == t.phase.seen
  {
    hide Submitting, Lock, PaymentLines, Recoupable, RejectedManually, Paid, AfterPayment;
  }

  /** What a bill recouped is set by its own commit, from its view, and never changes. */
  lemma StepKeepsRecouped(w: World, action: Action, b: nat)
    requires Invariant(w) && b in Apply(w, action).recouped
    ensures if b in w.recouped then Apply(w, action).recouped[b] == w.recouped[b]
            else && action.Commit? && action.tx in w.txs && w.txs[action.tx].claim == b
                    && w.txs[action.tx].phase.Written?
                 && Apply(w, action).recouped[b] == w.txs[action.tx].phase.seen
  {
    if action.Commit? {
      CommitKeepsRecouped(w, action.tx, b);
    } else {
      OnlyCommitsRecoup(w, action);
    }
  }

  lemma OnlyCommitsRecoup(w: World, action: Action)
    requires !action.Commit?
    ensures Apply(w, action).recouped == w.recouped
  {
    hide Submitting, Lock, PaymentLines;
  }

  lemma CommitKeepsRecouped(w: World, tx: nat, b: nat)
    requires Invariant(w) && b in Apply(w, Commit(tx)).recouped
    ensures if b in w.recouped then Apply(w, Commit(tx)).recouped[b] == w.recouped[b]
            else tx in w.txs && w.txs[tx].claim == b && w.txs[tx].phase.Written?
                 && Apply(w, Commit(tx)).recouped[b] == w.txs[tx].phase.seen
  {
    hide Invariant, RejectedManually, Paid, PaymentLines, TxFits;
    if tx in w.txs {
      NotYetRecouped(w, tx);
    }
  }

  lemma NotYetRecouped(w: World, tx: nat)
    requires Invariant(w) && tx in w.txs
    ensures w.txs[tx].claim !in w.recouped && w.txs[tx].claim < |w.db.claims|
  {
    TxClaims(w, tx);
    hide TxFits;
  }

  lemma RecoupedArePaid(w: World, b: nat)
    requires Invariant(w) && b in w.recouped
    ensures b < |w.db.claims| && w.db.claims[b].IsPaid() && !w.db.claims[b].IsPoa()
  {
  }

  // ------------------------------------------------------------------------ runs

  /** A run is its part up to step i, continued. */
  lemma {:induction false} RunOn(w: World, actions: seq<Action>, i: nat)
    requires i <= |actions|
    ensures Run(w, actions) == Run(Run(w, actions[..i]), actions[i..])
  {
    hide Apply;
    if i == |actions| {
      assert actions[..i] == actions;
    } else {
      var last := |actions| - 1;
      RunOn(w, actions[..last], i);
      assert actions[..last][..i] == actions[..i];
      assert actions[i..][..last - i] == actions[..last][i..];
    }
  }

  lemma {:induction false} ViewHasARead(applications: seq<Application>, actions: seq<Action>, tx: nat) returns (i: nat)
    requires tx in After(applications, actions).txs && !After(applications, actions).txs[tx].phase.Held?
    ensures var t := After(applications, actions).txs[tx];
            ReadsAt(applications, actions, i, tx, t.claim, t.phase.seen)
  {
    var last := |actions| - 1;
    var before := After(applications, actions[..last]);
    StepKeepsView(before, actions[last], tx);
    hide Apply;
    if before.txs[tx].phase.Held? {
      i := last;
      EveryRunConsistent(applications, actions[..last]);
      TxClaims(before, tx);
    } else {
      i := ViewHasARead(applications, actions[..last], tx);
      assert actions[..last][..i] == actions[..i];
    }
  }

  /**
   Every bill a run has paid was paid through one read and one commit, and recouped just what was paid at the read.
   */
  lemma {:induction false} EveryBillHasAHistory(applications: seq<Application>, actions: seq<Action>, b: nat)
    returns (i: nat, j: nat, tx: nat)
    requires b in After(applications, actions).recouped
    ensures PaidThrough(applications, actions, b, i, j, tx)
  {
    hide Apply, ReadsAt, Invariant;
    var last := |actions| - 1;
    var before := After(applications, actions[..last]);
    EveryRunConsistent(applications, actions[..last]);
    StepKeepsRecouped(before, actions[last], b);
    if b in before.recouped {
      i, j, tx := EveryBillHasAHistory(applications, actions[..last], b);
      SamePrefix(applications, actions, last, i, tx, b, before.recouped[b]);
      assert actions[..last][..j] == actions[..j] && actions[..last][..j + 1] == actions[..j + 1];
    } else {
      j, tx := last, actions[last].tx;
      i := ViewHasARead(applications, actions[..last], tx);
      SamePrefix(applications, actions, last, i, tx, b, before.txs[tx].phase.seen);
      assert actions[..j + 1] == actions;
      TxClaims(before, tx);
      EveryRunConsistent(applications, actions);
      RecoupedArePaid(After(applications, actions), b);
    }
  }

  lemma SamePrefix(applications: seq<Application>, actions: seq<Action>, n: nat, i: nat, tx: nat, b: nat,
                   seen: seq<nat>)
    requires n <= |actions| && ReadsAt(applications, actions[..n], i, tx, b, seen)
    ensures i < n && ReadsAt(applications, actions, i, tx, b, seen)
  {
    assert actions[..n][..i] == actions[..i];
  }

  // ------------------------------------------------------------- from a step to the end

  /** Through one step a claim keeps all but its status, and once it is decided that and its lines too. */
  ghost predicate Carries(db: Database, db': Database, c: nat) {
    c < |db.claims| ==>
      && c < |db'.claims| && db'.claims[c] == db.claims[c].(status := db'.claims[c].status)
      && (db.claims[c].status != Submitted ==>
            db'.claims[c] == db.claims[c] && LinesOf(db'.ledger, c) == LinesOf(db.ledger, c))
  }

  lemma EvolvesCarries(db: Database, db': Database, touched: nat, c: nat)
    requires Evolves(db, db', touched)
    ensures Carries(db, db', c)
  {
  }

  lemma CarriesOn(db: Database, db': Database, db'': Database, c: nat)
    requires Carries(db, db', c) && Carries(db', db'', c)
    ensures Carries(db, db'', c)
  {
  }

  lemma {:induction false} RunCarries(applications: seq<Application>, actions: seq<Action>, i: nat, c: nat)
    requires i <= |actions|
    ensures Carries(After(applications, actions[..i]).db, After(applications, actions).db, c)
  {
    if i == |actions| {
      assert actions[..i] == actions;
    } else {
      hide Apply, Carries, Invariant;
      var last := |actions| - 1;
      var before := After(applications, actions[..last]);
      RunCarries(applications, actions[..last], i, c);
      assert actions[..last][..i] == actions[..i];
      EveryRunConsistent(applications, actions[..last]);
      var touched := ApplyEvolves(before, actions[last]);
      EvolvesCarries(before.db, After(applications, actions).db, touched, c);
      CarriesOn(After(applications, actions[..i]).db, before.db, After(applications, actions).db, c);
    }
  }

  // --------------------------------------------------------------------- main results

  /** The payments on account of an application that are paid now and were not paid then, among the first n claims. */
  function PaidSince(earlier: seq<Claim>, now: seq<Claim>, ledger: seq<LedgerRow>, app: nat, n: nat): int
    requires n <= |now|
  {
    if n == 0 then 0
    else
      PaidSince(earlier, now, ledger, app, n - 1)
      + if PaidPoa(now, app, n - 1) && !PaidPoa(earlier, app, n - 1) then Sum(LinesOf(ledger, n - 1)) else 0
  }

  lemma {:induction false} UnrecoupedIsPaidSince(earlier: seq<Claim>, now: seq<Claim>, ledger: seq<LedgerRow>, app: nat,
                                                 ids: seq<nat>, n: nat)
    requires n <= |now| && forall p: nat | PaidPoa(now, app, p) :: p in ids <==> PaidPoa(earlier, app, p)
    ensures Unrecouped(now, ledger, app, ids, n) == PaidSince(earlier, now, ledger, app, n)
  {
    hide LinesOf;
    if n > 0 {
      UnrecoupedIsPaidSince(earlier, now, ledger, app, ids, n - 1);
    }
  }

  /** What the record of recoupments holds for a paid bill, in terms of the run. */
  lemma RecoupedMeansPaidAtTheRead(applications: seq<Application>, actions: seq<Action>, b: nat, i: nat, j: nat,
                                   tx: nat)
    requires PaidThrough(applications, actions, b, i, j, tx)
    ensures var w := After(applications, actions);
            && b < |w.db.claims|
            && forall p: nat | PaidPoa(w.db.claims, w.db.claims[b].app, p) ::
                 p in w.recouped[b] <==> PaidPoa(ClaimsAt(applications, actions, i), w.db.claims[b].app, p)
  {
    EveryRunConsistent(applications, actions);
    RecoupedArePaid(After(applications, actions), b);
    hide Apply, Invariant;
    RunCarries(applications, actions, i, b);
  }

  /**
   After every run in which bill b is paid there is one read and one later commit that paid it, and the application's
   ledger comes to the bill's own lines plus the payments on account paid now that were not yet paid at that read.
   */
  lemma EveryRunConserves(applications: seq<Application>, actions: seq<Action>, b: nat)
    returns (i: nat, j: nat, tx: nat)
    requires var db := After(applications, actions).db;
             b < |db.claims| && !db.claims[b].IsPoa() && db.claims[b].IsPaid()
    ensures PaidThrough(applications, actions, b, i, j, tx)
    ensures var db := After(applications, actions).db;
            var app := db.claims[b].app;
            AppTotal(db.claims, db.ledger, app)
            == Sum(Own(db, b)) + PaidSince(ClaimsAt(applications, actions, i), db.claims, db.ledger, app, |db.claims|)
  {
    var w := After(applications, actions);
    EveryRunConsistent(applications, actions);
    hide Apply, Consistent, Own, LinesOf, ReadsAt;
    PaidBillsRecorded(w.db, w.recouped, b);
    i, j, tx := EveryBillHasAHistory(applications, actions, b);
    RecoupedMeansPaidAtTheRead(applications, actions, b, i, j, tx);
    ConservedWithBill(w.db, w.recouped, b);
    UnrecoupedIsPaidSince(ClaimsAt(applications, actions, i), w.db.claims, w.db.ledger, w.db.claims[b].app,
                          w.recouped[b], |w.db.claims|);
  }

  /** The ledger rows with an invoice number. */
  function RowsNumbered(ledger: seq<LedgerRow>, number: string): seq<LedgerRow> {
    if ledger == [] then []
    else
      var last := ledger[|ledger| - 1];
      RowsNumbered(ledger[..|ledger| - 1], number) + if last.line.number == number then [last] else []
  }

  lemma {:induction false} RowsNumberedExact(ledger: seq<LedgerRow>, number: string)
    ensures forall r :: r in RowsNumbered(ledger, number) <==> r in ledger && r.line.number == number
  {
    if ledger != [] {
      RowsNumberedExact(ledger[..|ledger| - 1], number);
      assert ledger == ledger[..|ledger| - 1] + [ledger[|ledger| - 1]];
    }
  }

  lemma {:induction false} RowsNumberedAtMostOne(ledger: seq<LedgerRow>, number: string)
    requires forall i, j | 0 <= i < j < |ledger| :: ledger[i].line.number != ledger[j].line.number
    ensures |RowsNumbered(ledger, number)| <= 1
  {
    if ledger != [] {
      var last := |ledger| - 1;
      RowsNumberedAtMostOne(ledger[..last], number);
      RowsNumberedExact(ledger[..last], number);
      var earlier := RowsNumbered(ledger[..last], number);
      assert earlier != [] ==> earlier[0] in earlier;
    }
  }

  /** A row that takes back a line of a payment on account belongs to the bill that recouped it. */
  lemma TakenBackBy(db: Database, recouped: Recouped, p: nat, k: nat, r: nat)
    requires Consistent(db, recouped) && p < |db.claims| && k < |LinesOf(db.ledger, p)|
    requires r < |db.ledger| && db.ledger[r].claim < |db.claims|
    requires db.ledger[r].line.number == RecoupmentNumber(LinesOf(db.ledger, p)[k].number)
    ensures db.ledger[r].claim in recouped && p in recouped[db.ledger[r].claim]
  {
    hide *;
    var c, j := db.ledger[r].claim, Position(db.ledger, r);
    PositionFits(db.ledger, r);
    if j < |Own(db, c)| {
      OwnFirst(db, recouped, c, j);
      OwnNotSuffixed(db, recouped, c, j, LinesOf(db.ledger, p)[k].number);
    } else {
      var q, l := RecoupmentOrigin(db, recouped, c, j);
      RecoupmentNumberInjective(LinesOf(db.ledger, q)[l].number, LinesOf(db.ledger, p)[k].number);
      NumbersDiffer(db, recouped, q, l, p, k);
    }
  }

  lemma OwnNotSuffixed(db: Database, recouped: Recouped, c: nat, j: nat, number: string)
    requires Consistent(db, recouped) && c < |db.claims| && j < |Own(db, c)|
    ensures Own(db, c)[j].number != RecoupmentNumber(number)
  {
    hide Consistent, Own, LinesOf, InvoiceNumber;
    LinesSplit(db, recouped, c);
    OwnNumberIsNoRecoupment(db.claims[c].reference, j + 1, number);
  }

  /** A recouped line is taken back by exactly one row of the whole ledger. */
  lemma TakenBackOnce(db: Database, recouped: Recouped, b: nat, p: nat, k: nat)
    requires Consistent(db, recouped) && b < |db.claims| && b in recouped && p in recouped[b]
    requires p < |db.claims| && k < |LinesOf(db.ledger, p)|
    ensures var original := LinesOf(db.ledger, p)[k];
            var rows := RowsNumbered(db.ledger, RecoupmentNumber(original.number));
            && |rows| == 1 && rows[0].claim == b && rows[0].line.kind == Recouped
            && rows[0].line.amount == -original.amount && rows[0].line.tax == original.tax
  {
    hide *;
    var original := LinesOf(db.ledger, p)[k];
    var rows := RowsNumbered(db.ledger, RecoupmentNumber(original.number));
    var m := RecoupedExactly(db, recouped, b, p, k);
    var r := RowAt(db.ledger, b, m);
    RowsNumberedExact(db.ledger, RecoupmentNumber(original.number));
    UniqueConstraints(db, recouped);
    RowsNumberedAtMostOne(db.ledger, RecoupmentNumber(original.number));
    assert db.ledger[r] in rows;
  }

  /**
   A line of a payment on account has exactly one row of the whole ledger against it, of opposite amount and with its
   tax code, if the payment was paid when the bill read the claims; if it was paid later it has none.
   */
  lemma TakenBackExactlyIfPaidAtTheRead(applications: seq<Application>, actions: seq<Action>,
                                        b: nat, i: nat, j: nat, tx: nat, p: nat, k: nat)
    requires PaidThrough(applications, actions, b, i, j, tx)
    requires var db := After(applications, actions).db;
             && b < |db.claims| && PaidPoa(db.claims, db.claims[b].app, p) && k < |LinesOf(db.ledger, p)|
    ensures var db := After(applications, actions).db;
            var original := LinesOf(db.ledger, p)[k];
            var rows := RowsNumbered(db.ledger, RecoupmentNumber(original.number));
            if PaidPoa(ClaimsAt(applications, actions, i), db.claims[b].app, p)
            then && LinesOf(After(applications, actions[..i]).db.ledger, p) == LinesOf(db.ledger, p)
                 && |rows| == 1 && rows[0].claim == b && rows[0].line.kind == Recouped
                 && rows[0].line.amount == -original.amount && rows[0].line.tax == original.tax
            else rows == []
  {
    hide Apply, Invariant, Consistent, LinesOf, RowsNumbered, ReadsAt, PaidPoa;
    var w := After(applications, actions);
    EveryRunConsistent(applications, actions);
    InvariantConsistent(w);
    RecoupedMeansPaidAtTheRead(applications, actions, b, i, j, tx);
    OfApplication(w.db.claims, w.db.claims[b].app, p);
    if PaidPoa(ClaimsAt(applications, actions, i), w.db.claims[b].app, p) {
      OfApplication(ClaimsAt(applications, actions, i), w.db.claims[b].app, p);
      RunCarries(applications, actions, i, p);
      TakenBackOnce(w.db, w.recouped, b, p, k);
    } else {
      NotTakenBack(w.db, w.recouped, b, p, k);
    }
  }

  lemma OfApplication(claims: seq<Claim>, app: nat, p: nat)
    requires PaidPoa(claims, app, p)
    ensures p < |claims| && claims[p].app == app && claims[p].status != Submitted
  {
  }

  lemma RowsHaveClaims(db: Database, recouped: Recouped)
    requires Consistent(db, recouped)
    ensures forall r | r in db.ledger :: r.claim < |db.claims|
  {
  }

  /** A line the bill did not recoup has no row against it. */
  lemma NotTakenBack(db: Database, recouped: Recouped, b: nat, p: nat, k: nat)
    requires Consistent(db, recouped) && b < |db.claims| && b in recouped && p !in recouped[b]
    requires p < |db.claims| && db.claims[p].app == db.claims[b].app && k < |LinesOf(db.ledger, p)|
    ensures RowsNumbered(db.ledger, RecoupmentNumber(LinesOf(db.ledger, p)[k].number)) == []
  {
    hide *;
    RowsHaveClaims(db, recouped);
    var rows := RowsNumbered(db.ledger, RecoupmentNumber(LinesOf(db.ledger, p)[k].number));
    RowsNumberedExact(db.ledger, RecoupmentNumber(LinesOf(db.ledger, p)[k].number));
    if rows != [] {
      assert rows[0] in rows;
      var r :| 0 <= r < |db.ledger| && db.ledger[r] == rows[0];
      TakenBackBy(db, recouped, p, k, r);
      SameBill(db, recouped, b, rows[0].claim, p);
    }
  }

  /** A payment on account of the bill's application is recouped by no other bill. */
  lemma SameBill(db: Database, recouped: Recouped, b: nat, c: nat, p: nat)
    requires Consistent(db, recouped) && b in recouped && c in recouped && p in recouped[c]
    requires b < |db.claims| && p < |db.claims| && db.claims[p].app == db.claims[b].app
    ensures c == b
  {
    hide Consistent;
    RecoupedFits(db, recouped, b);
    RecoupedFits(db, recouped, c);
    OnePaidBill(db, recouped, b, c);
  }
}
