/** Invoice lines: how a payment in full is split, numbered and, for earlier payments on account, recouped. */
module PaymentExtract {
  import opened Options
  import opened Money
  import opened InvoiceNumbers
  import opened Claims
  import opened PayInFullAmounts

  datatype InvoiceType = FinalBillFees | FinalBillDisbursement | POA | Recouped

  datatype TaxCode = GbVat20 | ZeroVat

  /** `day` is the number of the UTC day the invoice is dated. */
  datatype Line = Line(sequence: nat, number: string, amount: int, day: int, kind: InvoiceType, tax: TaxCode)

  function Day(at: int): int { at / DAY }

  function NumberedLine(reference: string, sequence: nat, amount: int, day: int, kind: InvoiceType,
                        tax: TaxCode): Line {
    Line(sequence, InvoiceNumber(reference, sequence), amount, day, kind, tax)
  }

  // ------------------------------------------------------------- specification

  /** None where the builder refuses: neither a net nor a zero-rated amount. */
  function PoaProfitCostLine(reference: string, day: int, net: Option<int>, vatZero: Option<int>): Option<Line> {
    if vatZero.Some? then
      Some(NumberedLine(reference, 1, PayZeroRated(vatZero.value), day, POA, ZeroVat))
    else if net.Some? then
      Some(NumberedLine(reference, 1, PayStandardRated(net.value), day, POA, GbVat20))
    else None
  }

  /** A standard-rated line for what gross exceeds the zero-rated amount by, then a zero-rated line. */
  function DisbursementLines(reference: string, start: nat, day: int, gross: Option<int>, vatZero: Option<int>,
                             kind: InvoiceType): seq<Line> {
    var standard := gross.GetOr(0) - vatZero.GetOr(0);
    var first := if standard > 0 then [NumberedLine(reference, start, standard, day, kind, GbVat20)] else [];
    first
    + if vatZero.GetOr(0) > 0 then [NumberedLine(reference, start + |first|, vatZero.value, day, kind, ZeroVat)] else []
  }

  function FeesLines(reference: string, day: int, gross: Option<int>, vatZero: Option<int>): seq<Line> {
    if vatZero.GetOr(0) > 0 then [NumberedLine(reference, 1, vatZero.value, day, FinalBillFees, ZeroVat)]
    else if gross.GetOr(0) > 0 then [NumberedLine(reference, 1, gross.value, day, FinalBillFees, GbVat20)]
    else []
  }

  function NilLine(reference: string, day: int): Line {
    NumberedLine(reference, 1, 0, day, FinalBillFees, ZeroVat)
  }

  /** A final or nil bill's own lines, before recoupments. */
  function BillLines(claim: Claim, a: Amounts): seq<Line> {
    var day := Day(claim.submittedAt);
    if a.IsNil() then [NilLine(claim.reference, day)]
    else
      var fees := FeesLines(claim.reference, day, a.profitGross, a.profitVatZero);
      fees
      + DisbursementLines(claim.reference, 1 + |fees|, day,
                          a.disbursementGross, a.disbursementVatZero, FinalBillDisbursement)
  }

  /** A payment on account's lines; None where the builder refuses. */
  function PoaLines(claim: Claim, a: Amounts): Option<seq<Line>> {
    var day := Day(claim.submittedAt);
    match claim.poaType
    case None => Some([])
    case Some(ProfitCost) =>
      var line := PoaProfitCostLine(claim.reference, day, a.profitNet, a.profitVatZero);
      if line.None? then None else Some([line.value])
    case Some(_) => Some(DisbursementLines(claim.reference, 1, day, a.disbursementGross, a.disbursementVatZero, POA))
  }

  function RecoupmentLine(sequence: nat, day: int, original: Line): Line {
    Line(sequence, RecoupmentNumber(original.number), Quantize(-original.amount), day, Recouped, original.tax)
  }

  function RecoupmentLines(start: nat, day: int, originals: seq<Line>): (r: seq<Line>)
    ensures |r| == |originals|
  {
    seq(|originals|, k requires 0 <= k < |originals| => RecoupmentLine(start + k, day, originals[k]))
  }

  function Sum(lines: seq<Line>): int {
    if lines == [] then 0 else Sum(lines[..|lines| - 1]) + lines[|lines| - 1].amount
  }

  /** Lines numbered 1, 2, 3, ... under one claim reference. */
  predicate Numbered(reference: string, lines: seq<Line>) {
    forall k | 0 <= k < |lines| ::
      lines[k].sequence == k + 1 && lines[k].number == InvoiceNumber(reference, k + 1)
  }

  // ------------------------------------------------------------------ builders

  method BuildDisbursementExtract(reference: string, start: nat, day: int, gross: Option<int>, vatZero: Option<int>,
                                  kind: InvoiceType)
    returns (lines: seq<Line>)
    ensures lines == DisbursementLines(reference, start, day, gross, vatZero, kind)
  {
    var standard := (if gross.Some? then gross.value else 0) - (if vatZero.Some? then vatZero.value else 0);
    lines := [];
    var sequence := start;
    if standard > 0 {
      lines := lines + [NumberedLine(reference, sequence, Quantize(standard), day, kind, GbVat20)];
      sequence := sequence + 1;
    }
    if vatZero.Some? && vatZero.value > 0 {
      lines := lines + [NumberedLine(reference, sequence, Quantize(vatZero.value), day, kind, ZeroVat)];
    }
  }

  method BuildRecoupmentExtract(start: nat, day: int, originals: seq<Line>) returns (lines: seq<Line>)
    ensures lines == RecoupmentLines(start, day, originals)
  {
    lines := [];
    for offset := 0 to |originals|
      invariant lines == RecoupmentLines(start, day, originals[..offset])
    {
      lines := lines + [RecoupmentLine(start + offset, day, originals[offset])];
    }
    assert originals[..|originals|] == originals;
  }

  method BuildBillExtract(claim: Claim, a: Amounts) returns (lines: seq<Line>)
    ensures lines == BillLines(claim, a)
  {
    lines := [];
    var sequence := 1;
    var day := Day(claim.submittedAt);
    if a.IsNil() {
      lines := lines + [NilLine(claim.reference, day)];
    } else {
      var fees := FeesLines(claim.reference, day, a.profitGross, a.profitVatZero);
      if fees != [] {
        lines := lines + fees;
        sequence := sequence + 1;
      }
      var disbursements := BuildDisbursementExtract(
        claim.reference, sequence, day, a.disbursementGross, a.disbursementVatZero, FinalBillDisbursement);
      lines := lines + disbursements;
    }
  }

  // ---------------------------------------------------------------- properties

  lemma {:induction false} SumConcat(a: seq<Line>, b: seq<Line>)
    ensures Sum(a + b) == Sum(a) + Sum(b)
  {
    if b == [] {
      assert a + b == a;
    } else {
      var last := |b| - 1;
      assert (a + b)[..|a + b| - 1] == a + b[..last];
      SumConcat(a, b[..last]);
    }
  }

  lemma SumSmall(lines: seq<Line>)
    requires |lines| <= 2
    ensures |lines| == 0 ==> Sum(lines) == 0
    ensures |lines| == 1 ==> Sum(lines) == lines[0].amount
    ensures |lines| == 2 ==> Sum(lines) == lines[0].amount + lines[1].amount
  {
    if |lines| == 2 {
      assert lines[..1] == [lines[0]];
    }
  }

  /**
   Exactly when the disbursement lines come to the resolved total: the zero-rated amount
   is not negative and a non-zero gross covers it. For non-negative amounts that
   pass the decision checks this always holds; the checks do not refuse negative ones.
   */
  lemma SplitConserved(reference: string, start: nat, day: int, gross: Option<int>, vatZero: Option<int>,
                       kind: InvoiceType)
    ensures Sum(DisbursementLines(reference, start, day, gross, vatZero, kind))
            == ResolveTotal(gross, vatZero, 0).GetOr(0)
            <==> vatZero.GetOr(0) >= 0 && (gross.GetOr(0) == 0 || gross.GetOr(0) >= vatZero.GetOr(0))
  {
    var lines := DisbursementLines(reference, start, day, gross, vatZero, kind);
    SumSmall(lines);
  }

  /** A decision the checks accept whose lines pay 5 pence for a resolved total of minus 5. */
  lemma NegativeZeroRatedMisSplits()
    ensures var a := EMPTY.(disbursementVatZero := Some(-5));
            && Check(PaymentOnAccount, Some(ExpertCost), a).None?
            && a.DisbursementTotal() == -5
            && Sum(DisbursementLines("INQC-ACEF-HJKL", 1, 0, a.disbursementGross, a.disbursementVatZero, POA)) == 5
  {
    SumSmall(DisbursementLines("INQC-ACEF-HJKL", 1, 0, None, Some(-5), POA));
  }

  lemma FeesConserved(reference: string, day: int, a: Amounts)
    requires ProfitCostFits(a) && a.NonNegative()
    ensures var lines := FeesLines(reference, day, a.profitGross, a.profitVatZero);
            && Sum(lines) == a.ProfitTotal()
            && (lines == [] <==> a.ProfitTotal() == 0)
            && forall l | l in lines :: l.amount > 0
  {
    SumSmall(FeesLines(reference, day, a.profitGross, a.profitVatZero));
  }

  lemma DisbursementsConserved(reference: string, start: nat, day: int, a: Amounts)
    requires DisbursementFits(a) && a.NonNegative()
    ensures var lines := DisbursementLines(reference, start, day, a.disbursementGross, a.disbursementVatZero,
                                           FinalBillDisbursement);
            && |lines| <= 2
            && Sum(lines) == a.DisbursementTotal()
            && (lines == [] <==> a.DisbursementTotal() == 0)
            && forall l | l in lines :: l.amount > 0
  {
    SplitConserved(reference, start, day, a.disbursementGross, a.disbursementVatZero, FinalBillDisbursement);
  }

  /** An accepted, non-negative decision is nil exactly when it comes to nothing. */
  lemma NilMeansNothing(a: Amounts)
    requires ProfitCostFits(a) && DisbursementFits(a) && a.NonNegative()
    ensures a.IsNil() <==> a.ProfitTotal() == 0 && a.DisbursementTotal() == 0
  {
  }

  /** An accepted bill is nil, as a nil bill always is, or has profit costs and disbursements that fit. */
  lemma BillFits(claim: Claim, a: Amounts)
    requires !claim.IsPoa() && claim.poaType.None? && Check(claim.claimType, claim.poaType, a).None?
    ensures a.IsNil() || (ProfitCostFits(a) && DisbursementFits(a))
    ensures claim.claimType == NilBill ==> a.IsNil()
  {
    CheckExact(claim.claimType, claim.poaType, a);
    hide Check;
  }

  /** A bill that is not nil has its fees line, if any, then its disbursement lines. */
  lemma BillParts(claim: Claim, a: Amounts) returns (fees: seq<Line>, rest: seq<Line>)
    ensures fees == FeesLines(claim.reference, Day(claim.submittedAt), a.profitGross, a.profitVatZero)
    ensures |fees| <= 1
    ensures rest == DisbursementLines(claim.reference, 1 + |fees|, Day(claim.submittedAt),
                                      a.disbursementGross, a.disbursementVatZero, FinalBillDisbursement)
    ensures !a.IsNil() ==> BillLines(claim, a) == fees + rest && Sum(BillLines(claim, a)) == Sum(fees) + Sum(rest)
  {
    var day := Day(claim.submittedAt);
    fees := FeesLines(claim.reference, day, a.profitGross, a.profitVatZero);
    rest := DisbursementLines(claim.reference, 1 + |fees|, day,
                              a.disbursementGross, a.disbursementVatZero, FinalBillDisbursement);
    SumConcat(fees, rest);
  }

  lemma NilComesToNothing(claim: Claim, a: Amounts)
    requires a.IsNil()
    ensures BillLines(claim, a) == [NilLine(claim.reference, Day(claim.submittedAt))] && Sum(BillLines(claim, a)) == 0
    ensures a.ProfitTotal() == 0 && a.DisbursementTotal() == 0 && Nests(a.disbursementGross, a.disbursementVatZero)
  {
    SumSmall(BillLines(claim, a));
  }

  /** The own lines of an accepted, non-negative bill: one to three, numbered from 1, conserving the decided money. */
  lemma BillSplitConserved(claim: Claim, a: Amounts)
    requires !claim.IsPoa() && claim.poaType.None?
    requires Check(claim.claimType, claim.poaType, a).None? && a.NonNegative()
    ensures var lines := BillLines(claim, a);
            && 1 <= |lines| <= 3
            && Sum(lines) == a.ProfitTotal() + a.DisbursementTotal()
            && (a.IsNil() <==> lines == [NilLine(claim.reference, Day(claim.submittedAt))])
            && (!a.IsNil() ==> forall l | l in lines :: l.amount > 0)
  {
    hide Check, BillLines, DisbursementLines, FeesLines, ProfitCostFits, DisbursementFits, NilLine, ResolveTotal;
    BillFits(claim, a);
    if a.IsNil() {
      NilComesToNothing(claim, a);
    } else {
      var fees, rest := BillParts(claim, a);
      FeesConserved(claim.reference, Day(claim.submittedAt), a);
      DisbursementsConserved(claim.reference, 1 + |fees|, Day(claim.submittedAt), a);
      NilMeansNothing(a);
      NilLineIsZero(claim.reference, Day(claim.submittedAt));
    }
  }

  lemma NilLineIsZero(reference: string, day: int)
    ensures NilLine(reference, day).amount == 0
  {
  }

  /** Accepted profit costs, negative ones included: the fees lines come to them, or to nothing if they are negative. */
  lemma FeesExact(reference: string, day: int, a: Amounts)
    requires ProfitCostFits(a)
    ensures Sum(FeesLines(reference, day, a.profitGross, a.profitVatZero))
            == if a.ProfitTotal() > 0 then a.ProfitTotal() else 0
  {
    SumSmall(FeesLines(reference, day, a.profitGross, a.profitVatZero));
  }

  /** The zero-rated part is not negative and lies within a gross that is not zero. */
  predicate Nests(gross: Option<int>, vatZero: Option<int>) {
    vatZero.GetOr(0) >= 0 && (gross.GetOr(0) == 0 || gross.GetOr(0) >= vatZero.GetOr(0))
  }

  lemma DisbursementsAtLeast(reference: string, start: nat, day: int, gross: Option<int>, vatZero: Option<int>,
                             kind: InvoiceType)
    ensures Sum(DisbursementLines(reference, start, day, gross, vatZero, kind))
            >= ResolveTotal(gross, vatZero, 0).GetOr(0)
  {
    SumSmall(DisbursementLines(reference, start, day, gross, vatZero, kind));
  }

  /**
   An accepted bill never pays less than was decided, and pays just that exactly when its parts are not negative and
   nest.
   */
  lemma BillSplitExact(claim: Claim, a: Amounts)
    requires !claim.IsPoa() && claim.poaType.None? && Check(claim.claimType, claim.poaType, a).None?
    ensures Sum(BillLines(claim, a)) >= a.ProfitTotal() + a.DisbursementTotal()
    ensures Sum(BillLines(claim, a)) == a.ProfitTotal() + a.DisbursementTotal()
            <==> a.ProfitTotal() >= 0 && Nests(a.disbursementGross, a.disbursementVatZero)
  {
    hide Check, BillLines, DisbursementLines, FeesLines, ProfitCostFits, DisbursementFits, NilLine, ResolveTotal;
    BillFits(claim, a);
    if a.IsNil() {
      NilComesToNothing(claim, a);
    } else {
      var fees, rest := BillParts(claim, a);
      var day := Day(claim.submittedAt);
      FeesExact(claim.reference, day, a);
      SplitConserved(claim.reference, 1 + |fees|, day,
                     a.disbursementGross, a.disbursementVatZero, FinalBillDisbursement);
      DisbursementsAtLeast(claim.reference, 1 + |fees|, day,
                           a.disbursementGross, a.disbursementVatZero, FinalBillDisbursement);
    }
  }

  /** An accepted final bill that pays 105 pence where 95 were decided. */
  lemma NegativeBillOverpays(claim: Claim)
    requires claim.claimType == FinalBill && claim.poaType.None?
    ensures var a := EMPTY.(profitVatZero := Some(100), disbursementVatZero := Some(-5));
            && Check(claim.claimType, claim.poaType, a).None?
            && a.ProfitTotal() + a.DisbursementTotal() == 95 && Sum(BillLines(claim, a)) == 105
  {
    var a := EMPTY.(profitVatZero := Some(100), disbursementVatZero := Some(-5));
    var fees, rest := BillParts(claim, a);
    SumSmall(fees);
    SumSmall(rest);
  }

  /** What the lines of one tax code come to. */
  function TaxSum(lines: seq<Line>, tax: TaxCode): int {
    if lines == [] then 0
    else
      var last := lines[|lines| - 1];
      TaxSum(lines[..|lines| - 1], tax) + if last.tax == tax then last.amount else 0
  }

  lemma {:induction false} TaxSumConcat(a: seq<Line>, b: seq<Line>, tax: TaxCode)
    ensures TaxSum(a + b, tax) == TaxSum(a, tax) + TaxSum(b, tax)
  {
    if b == [] {
      assert a + b == a;
    } else {
      var last := |b| - 1;
      assert (a + b)[..|a + b| - 1] == a + b[..last];
      TaxSumConcat(a, b[..last], tax);
    }
  }

  lemma TaxSumOne(line: Line, tax: TaxCode)
    ensures TaxSum([line], tax) == if line.tax == tax then line.amount else 0
  {
    assert [line][..0] == [];
  }

  lemma DisbursementsByTax(reference: string, start: nat, day: int, a: Amounts, kind: InvoiceType)
    requires DisbursementFits(a) && a.NonNegative()
    ensures var lines := DisbursementLines(reference, start, day, a.disbursementGross, a.disbursementVatZero, kind);
            && TaxSum(lines, ZeroVat) == a.disbursementVatZero.GetOr(0)
            && TaxSum(lines, GbVat20) == a.DisbursementTotal() - a.disbursementVatZero.GetOr(0)
  {
    var vatZero := a.disbursementVatZero.GetOr(0);
    var standard := a.disbursementGross.GetOr(0) - vatZero;
    var first := if standard > 0 then [NumberedLine(reference, start, standard, day, kind, GbVat20)] else [];
    var second := if vatZero > 0 then [NumberedLine(reference, start + |first|, vatZero, day, kind, ZeroVat)] else [];
    assert DisbursementLines(reference, start, day, a.disbursementGross, a.disbursementVatZero, kind) == first + second;
    forall tax: TaxCode
      ensures TaxSum(first + second, tax) == (if tax == GbVat20 && standard > 0 then standard else 0)
                                             + if tax == ZeroVat && vatZero > 0 then vatZero else 0
    {
      TaxSumConcat(first, second, tax);
      TaxSumOne(NumberedLine(reference, start, standard, day, kind, GbVat20), tax);
      TaxSumOne(NumberedLine(reference, start + |first|, vatZero, day, kind, ZeroVat), tax);
    }
  }

  /** The zero-rated lines of a bill come to what was decided as zero-rated, the standard-rated ones to all the rest. */
  lemma BillSplitByTax(claim: Claim, a: Amounts)
    requires !claim.IsPoa() && claim.poaType.None?
    requires Check(claim.claimType, claim.poaType, a).None? && a.NonNegative()
    ensures var zeroRated := a.profitVatZero.GetOr(0) + a.disbursementVatZero.GetOr(0);
            && TaxSum(BillLines(claim, a), ZeroVat) == zeroRated
            && TaxSum(BillLines(claim, a), GbVat20) == a.ProfitTotal() + a.DisbursementTotal() - zeroRated
  {
    CheckExact(claim.claimType, claim.poaType, a);
    var day := Day(claim.submittedAt);
    if a.IsNil() {
      TaxSumOne(NilLine(claim.reference, day), ZeroVat);
      TaxSumOne(NilLine(claim.reference, day), GbVat20);
    } else {
      var fees := FeesLines(claim.reference, day, a.profitGross, a.profitVatZero);
      var rest := DisbursementLines(claim.reference, 1 + |fees|, day,
                                    a.disbursementGross, a.disbursementVatZero, FinalBillDisbursement);
      FeesByTax(claim.reference, day, a);
      DisbursementsByTax(claim.reference, 1 + |fees|, day, a, FinalBillDisbursement);
      TaxSumConcat(fees, rest, ZeroVat);
      TaxSumConcat(fees, rest, GbVat20);
    }
  }

  lemma FeesByTax(reference: string, day: int, a: Amounts)
    requires ProfitCostFits(a) && a.NonNegative()
    ensures var lines := FeesLines(reference, day, a.profitGross, a.profitVatZero);
            && TaxSum(lines, ZeroVat) == a.profitVatZero.GetOr(0)
            && TaxSum(lines, GbVat20) == a.ProfitTotal() - a.profitVatZero.GetOr(0)
  {
    var lines := FeesLines(reference, day, a.profitGross, a.profitVatZero);
    if lines != [] {
      TaxSumOne(lines[0], ZeroVat);
      TaxSumOne(lines[0], GbVat20);
    }
  }

  /** Lines numbered on from `start` under one claim reference, all of one kind. */
  predicate NumberedFrom(reference: string, start: nat, kind: InvoiceType, lines: seq<Line>) {
    forall k | 0 <= k < |lines| ::
      lines[k].sequence == start + k && lines[k].number == InvoiceNumber(reference, start + k) && lines[k].kind == kind
  }

  lemma DisbursementLinesNumbered(reference: string, start: nat, day: int, gross: Option<int>, vatZero: Option<int>,
                                  kind: InvoiceType)
    ensures NumberedFrom(reference, start, kind, DisbursementLines(reference, start, day, gross, vatZero, kind))
  {
    hide InvoiceNumber;
  }

  lemma NumberedOn(reference: string, first: seq<Line>, kind: InvoiceType, rest: seq<Line>)
    requires Numbered(reference, first) && NumberedFrom(reference, 1 + |first|, kind, rest)
    ensures Numbered(reference, first + rest)
  {
    var all := first + rest;
    forall k | 0 <= k < |all|
      ensures all[k].sequence == k + 1 && all[k].number == InvoiceNumber(reference, k + 1)
    {
      if k >= |first| {
        assert all[k] == rest[k - |first|];
      }
    }
  }

  /** A bill's own lines carry the sequence numbers 1, 2, ... and the matching invoice numbers. */
  lemma BillLinesNumbered(claim: Claim, a: Amounts)
    ensures Numbered(claim.reference, BillLines(claim, a))
    ensures forall l | l in BillLines(claim, a) :: l.kind in {FinalBillFees, FinalBillDisbursement}
  {
    if !a.IsNil() {
      var day := Day(claim.submittedAt);
      var fees := FeesLines(claim.reference, day, a.profitGross, a.profitVatZero);
      var rest := DisbursementLines(claim.reference, 1 + |fees|, day,
                                    a.disbursementGross, a.disbursementVatZero, FinalBillDisbursement);
      DisbursementLinesNumbered(claim.reference, 1 + |fees|, day,
                                a.disbursementGross, a.disbursementVatZero, FinalBillDisbursement);
      NumberedOn(claim.reference, fees, FinalBillDisbursement, rest);
    }
  }

  lemma PoaLinesNumbered(claim: Claim, a: Amounts)
    requires PoaLines(claim, a).Some?
    ensures Numbered(claim.reference, PoaLines(claim, a).value)
    ensures forall l | l in PoaLines(claim, a).value :: l.kind == POA
  {
    DisbursementLinesNumbered(claim.reference, 1, Day(claim.submittedAt), a.disbursementGross, a.disbursementVatZero,
                              POA);
  }

  /** What a payment on account pays is never above what was claimed for it. */
  lemma PoaPaysAtMostClaimed(claim: Claim)
    requires claim.poaType.Some?
    requires claim.poaType == Some(ProfitCost) ==>
               || (claim.vatZero.Some? && claim.gross.None?)
               || (claim.vatZero.None? && claim.net.Some? && claim.gross.Some? && claim.net.value <= claim.gross.value)
    requires claim.net.GetOr(0) >= 0 && claim.gross.GetOr(0) >= 0 && claim.vatZero.GetOr(0) >= 0
    requires claim.poaType != Some(ProfitCost) ==> claim.vatZero.GetOr(0) <= claim.gross.GetOr(0)
    ensures var lines := PoaLines(claim, FromSubmitted(claim));
            lines.Some? && Sum(lines.value) <= claim.Amount()
  {
    var a := FromSubmitted(claim);
    SumSmall(PoaLines(claim, a).value);
    if claim.poaType == Some(ProfitCost) {
      PaymentsBelowCost(claim.net.GetOr(0));
      PaymentsBelowCost(claim.vatZero.GetOr(0));
    } else {
      SplitConserved(claim.reference, 1, Day(claim.submittedAt), a.disbursementGross, a.disbursementVatZero, POA);
    }
  }

  /** Recoupment takes back the originals to the penny, line by line. */
  lemma {:induction false} RecoupmentNegates(start: nat, day: int, originals: seq<Line>)
    ensures Sum(RecoupmentLines(start, day, originals)) == -Sum(originals)
  {
    if originals != [] {
      var last := |originals| - 1;
      RecoupmentNegates(start, day, originals[..last]);
      var lines := RecoupmentLines(start, day, originals);
      assert lines[..last] == RecoupmentLines(start, day, originals[..last]);
    }
  }

  /** Extending a running recoupment by the lines of one more claim, with the sequence advanced. */
  lemma RecoupmentAppend(start: nat, day: int, a: seq<Line>, b: seq<Line>)
    ensures RecoupmentLines(start, day, a + b)
         == RecoupmentLines(start, day, a) + RecoupmentLines(start + |a|, day, b)
  {
    var all := RecoupmentLines(start, day, a + b);
    var left, right := RecoupmentLines(start, day, a), RecoupmentLines(start + |a|, day, b);
    forall k | 0 <= k < |all|
      ensures all[k] == (left + right)[k]
    {
    }
  }

  // --------------------------------------------------- what a payment comes to, line by line

  /** What the lines of one kind and tax code come to. */
  function KindSum(lines: seq<Line>, kind: InvoiceType, tax: TaxCode): int {
    if lines == [] then 0
    else
      var last := lines[|lines| - 1];
      KindSum(lines[..|lines| - 1], kind, tax) + if last.kind == kind && last.tax == tax then last.amount else 0
  }

  lemma KindSumSmall(lines: seq<Line>, kind: InvoiceType, tax: TaxCode)
    requires |lines| <= 3
    ensures KindSum(lines, kind, tax)
         == (if |lines| > 0 && lines[0].kind == kind && lines[0].tax == tax then lines[0].amount else 0)
            + (if |lines| > 1 && lines[1].kind == kind && lines[1].tax == tax then lines[1].amount else 0)
            + (if |lines| > 2 && lines[2].kind == kind && lines[2].tax == tax then lines[2].amount else 0)
  {
    if |lines| == 3 {
      assert lines[..2][..1] == [lines[0]];
    } else if |lines| == 2 {
      assert lines[..1] == [lines[0]];
    }
  }

  /** Dated by the UTC day of the time. */
  predicate DatedBy(lines: seq<Line>, at: int) {
    forall k | 0 <= k < |lines| :: 86400 * lines[k].day <= at < 86400 * lines[k].day + 86400
  }

  /**
   The lines of a payment on account decided with the amounts. A profit cost pays 80%, to the nearest penny: of the
   zero-rated amount, or of the net amount with 20% VAT added, which makes 96%. Other costs are paid as decided, the
   standard-rated part before the zero-rated one.
   */
  predicate PaysPoa(claim: Claim, a: Amounts, lines: seq<Line>) {
    && DatedBy(lines, claim.submittedAt)
    && (forall k | 0 <= k < |lines| :: lines[k].kind == POA)
    && match claim.poaType
       case None => lines == []
       case Some(ProfitCost) =>
         && |lines| == 1
         && var amount := lines[0].amount;
            (match a.profitVatZero
             case Some(v) => lines[0].tax == ZeroVat && -2 <= 5 * amount - 4 * v <= 2
             case None =>
               lines[0].tax == GbVat20 && a.profitNet.Some? && -12 <= 25 * amount - 24 * a.profitNet.value <= 12)
       case Some(_) =>
         var gross, vatZero := a.disbursementGross.GetOr(0), a.disbursementVatZero.GetOr(0);
         && |lines| <= 2
         && (|lines| == 2 ==> lines[0].tax == GbVat20 && lines[1].tax == ZeroVat)
         && (forall k | 0 <= k < |lines| :: lines[k].amount > 0)
         && KindSum(lines, POA, GbVat20) == (if gross > vatZero then gross - vatZero else 0)
         && KindSum(lines, POA, ZeroVat) == (if vatZero > 0 then vatZero else 0)
  }

  lemma ProfitCostPaid(claim: Claim, a: Amounts)
    requires claim.poaType == Some(ProfitCost) && PoaLines(claim, a).Some?
    ensures PaysPoa(claim, a, PoaLines(claim, a).value)
  {
    if a.profitVatZero.Some? {
      ZeroRatedError(a.profitVatZero.value);
    } else {
      StandardRatedError(a.profitNet.value);
    }
    hide PayZeroRated, PayStandardRated, InvoiceNumber;
  }

  lemma OtherCostPaid(claim: Claim, a: Amounts)
    requires claim.poaType != Some(ProfitCost) && PoaLines(claim, a).Some?
    ensures PaysPoa(claim, a, PoaLines(claim, a).value)
  {
    hide InvoiceNumber, KindSum;
    KindSumSmall(PoaLines(claim, a).value, POA, GbVat20);
    KindSumSmall(PoaLines(claim, a).value, POA, ZeroVat);
  }

  /** The lines are refused just for a profit cost with neither a net nor a zero-rated amount. */
  lemma PoaLinesExact(claim: Claim, a: Amounts)
    ensures PoaLines(claim, a).Some? <==>
            (claim.poaType == Some(ProfitCost) ==> a.profitVatZero.Some? || a.profitNet.Some?)
    ensures PoaLines(claim, a).Some? ==> PaysPoa(claim, a, PoaLines(claim, a).value)
  {
    if PoaLines(claim, a).Some? {
      if claim.poaType == Some(ProfitCost) {
        ProfitCostPaid(claim, a);
      } else {
        OtherCostPaid(claim, a);
      }
    }
    hide PaysPoa, PayZeroRated, PayStandardRated, DisbursementLines;
  }

  /** Other costs that pass the decision checks with no negative amount are paid to the total decided. */
  lemma PoaDisbursementsConserved(claim: Claim, a: Amounts)
    requires claim.poaType.Some? && claim.poaType != Some(ProfitCost) && DisbursementFits(a) && a.NonNegative()
    ensures PoaLines(claim, a).Some? && Sum(PoaLines(claim, a).value) == a.DisbursementTotal()
  {
    SplitConserved(claim.reference, 1, Day(claim.submittedAt), a.disbursementGross, a.disbursementVatZero, POA);
  }

  /**
   A bill's own lines: fees before disbursements, of one tax code; of the disbursements the standard-rated part before
   the zero-rated one; and for a decision of nothing one zero-rated line of nothing.
   */
  predicate PaysBill(claim: Claim, a: Amounts, lines: seq<Line>) {
    var gross, vatZero := a.disbursementGross.GetOr(0), a.disbursementVatZero.GetOr(0);
    && DatedBy(lines, claim.submittedAt)
    && |lines| <= 3
    && (forall k | 0 <= k < |lines| :: lines[k].kind in {FinalBillFees, FinalBillDisbursement})
    && (forall i, j | 0 <= i < j < |lines| ::
          && lines[j].kind == FinalBillDisbursement
          && (lines[i].kind == FinalBillDisbursement ==> lines[i].tax == GbVat20 && lines[j].tax == ZeroVat))
    && KindSum(lines, FinalBillFees, ZeroVat) == (if a.profitVatZero.GetOr(0) > 0 then a.profitVatZero.value else 0)
    && KindSum(lines, FinalBillFees, GbVat20)
       == (if a.profitVatZero.GetOr(0) <= 0 && a.profitGross.GetOr(0) > 0 then a.profitGross.value else 0)
    && KindSum(lines, FinalBillDisbursement, GbVat20) == (if gross > vatZero then gross - vatZero else 0)
    && KindSum(lines, FinalBillDisbursement, ZeroVat) == (if vatZero > 0 then vatZero else 0)
    && if a.IsNil() then |lines| == 1 && lines[0].kind == FinalBillFees && lines[0].tax == ZeroVat
       else forall k | 0 <= k < |lines| :: lines[k].amount > 0
  }

  lemma BillLinesExact(claim: Claim, a: Amounts)
    ensures PaysBill(claim, a, BillLines(claim, a))
  {
    hide InvoiceNumber, KindSum;
    var lines := BillLines(claim, a);
    KindSumSmall(lines, FinalBillFees, ZeroVat);
    KindSumSmall(lines, FinalBillFees, GbVat20);
    KindSumSmall(lines, FinalBillDisbursement, GbVat20);
    KindSumSmall(lines, FinalBillDisbursement, ZeroVat);
  }

  /** A sum is made up of its kinds and tax codes. */
  lemma {:induction false} SumByKind(lines: seq<Line>, kind: InvoiceType)
    requires forall k | 0 <= k < |lines| :: lines[k].kind == kind
    ensures Sum(lines) == KindSum(lines, kind, GbVat20) + KindSum(lines, kind, ZeroVat)
  {
    if lines != [] {
      SumByKind(lines[..|lines| - 1], kind);
    }
  }
}
