/** The amounts a claim is paid in full with, and what a caseworker may enter for them. */
module PayInFullAmounts {
  import opened Options
  import opened Money
  import opened Claims

  /** All in whole pence. */
  datatype Amounts = Amounts(
    profitNet: Option<int>,
    profitGross: Option<int>,
    profitVatZero: Option<int>,
    disbursementNet: Option<int>,
    disbursementGross: Option<int>,
    disbursementVatZero: Option<int>)
  {
    predicate IsEmpty() {
      && profitNet.None? && profitGross.None? && profitVatZero.None?
      && disbursementNet.None? && disbursementGross.None? && disbursementVatZero.None?
    }

    predicate IsNil() {
      && profitNet.GetOr(0) == 0 && profitGross.GetOr(0) == 0 && profitVatZero.GetOr(0) == 0
      && disbursementNet.GetOr(0) == 0 && disbursementGross.GetOr(0) == 0 && disbursementVatZero.GetOr(0) == 0
    }

    predicate NonNegative() {
      && profitNet.GetOr(0) >= 0 && profitGross.GetOr(0) >= 0 && profitVatZero.GetOr(0) >= 0
      && disbursementNet.GetOr(0) >= 0 && disbursementGross.GetOr(0) >= 0 && disbursementVatZero.GetOr(0) >= 0
    }

    function ProfitTotal(): int { ResolveTotal(profitGross, profitVatZero, 0).GetOr(0) }

    function DisbursementTotal(): int { ResolveTotal(disbursementGross, disbursementVatZero, 0).GetOr(0) }
  }

  const EMPTY: Amounts := Amounts(None, None, None, None, None, None)

  /** The amounts the provider submitted for a payment on account. */
  function FromSubmitted(claim: Claim): Amounts {
    if claim.poaType == Some(ProfitCost)
    then EMPTY.(profitNet := claim.net, profitGross := claim.gross, profitVatZero := claim.vatZero)
    else EMPTY.(disbursementNet := claim.net, disbursementGross := claim.gross, disbursementVatZero := claim.vatZero)
  }

  function CheckProfitCost(claimType: ClaimType, poaType: Option<POAType>, a: Amounts): Option<ClaimError> {
    var any := a.profitNet.Some? || a.profitGross.Some? || a.profitVatZero.Some?;
    if claimType == NilBill then
      if any then Some(NotAllowedForNilBill) else None
    else if claimType == PaymentOnAccount && poaType.Some? && poaType != Some(ProfitCost) then
      if any then Some(NotAllowedForPoa) else None
    else if !any then Some(MissingTotalClaimCost)
    else if a.profitVatZero.Some? && (a.profitNet.Some? || a.profitGross.Some?) then Some(MixedVat)
    else if a.profitNet.Some? && a.profitGross.None? then Some(MissingGross)
    else if a.profitGross.Some? && a.profitNet.None? then Some(MissingNet)
    else if a.profitNet.Some? && a.profitGross.Some? && a.profitNet.value > a.profitGross.value
    then Some(NetHigherThanGross)
    else None
  }

  function CheckDisbursement(claimType: ClaimType, poaType: Option<POAType>, a: Amounts): Option<ClaimError> {
    var any := a.disbursementNet.Some? || a.disbursementGross.Some? || a.disbursementVatZero.Some?;
    if claimType == NilBill then
      if any then Some(NotAllowedForNilBill) else None
    else if claimType == PaymentOnAccount && poaType == Some(ProfitCost) then
      if any then Some(NotAllowedForPoa) else None
    else if !any then Some(MissingDisbursementTotal)
    else if a.disbursementNet.Some? && a.disbursementGross.None? then Some(MissingGross)
    else if a.disbursementGross.Some? && a.disbursementNet.None? then Some(MissingNet)
    else if a.disbursementNet.Some? && a.disbursementGross.Some? then
      var net, gross, vatZero := a.disbursementNet.value, a.disbursementGross.value, a.disbursementVatZero.GetOr(0);
      var noStandardRated := net == 0 && gross in {0, vatZero};
      if !noStandardRated && gross <= vatZero + net then Some(DisbursementGrossNotGreater) else None
    else None
  }

  /** The first failing check, profit cost before disbursement. */
  function Check(claimType: ClaimType, poaType: Option<POAType>, a: Amounts): Option<ClaimError> {
    var profit := CheckProfitCost(claimType, poaType, a);
    if profit.Some? then profit else CheckDisbursement(claimType, poaType, a)
  }

  /** The amounts a payment is decided with: the submitted ones when none are entered for a payment on account. */
  function Decided(claim: Claim, entered: Amounts): Result<Amounts, ClaimError> {
    var a := if claim.IsPoa() && entered.IsEmpty() then FromSubmitted(claim) else entered;
    var error := Check(claim.claimType, claim.poaType, a);
    if error.Some? then Err(error.value) else Ok(a)
  }

  /** Profit costs that pass: one VAT basis, and net not above gross. */
  predicate ProfitCostFits(a: Amounts) {
    || (a.profitVatZero.Some? && a.profitNet.None? && a.profitGross.None?)
    || (a.profitVatZero.None? && a.profitNet.Some? && a.profitGross.Some? && a.profitNet.value <= a.profitGross.value)
  }

  /** Disbursements that pass: zero-rated alone, or a gross that leaves something above net plus zero-rated. */
  predicate DisbursementFits(a: Amounts) {
    var net, gross, vatZero := a.disbursementNet, a.disbursementGross, a.disbursementVatZero.GetOr(0);
    && net.Some? == gross.Some?
    && (net.None? ==> a.disbursementVatZero.Some?)
    && (net.Some? ==>
          gross.value > vatZero + net.value || (net.value == 0 && (gross.value == 0 || gross.value == vatZero)))
  }

  predicate NoProfitCost(a: Amounts) {
    a.profitNet.None? && a.profitGross.None? && a.profitVatZero.None?
  }

  predicate NoDisbursement(a: Amounts) {
    a.disbursementNet.None? && a.disbursementGross.None? && a.disbursementVatZero.None?
  }

  /** A decision passes exactly when the kind of claim allows each part and each part present fits. */
  lemma CheckExact(claimType: ClaimType, poaType: Option<POAType>, a: Amounts)
    requires claimType == PaymentOnAccount <==> poaType.Some?
    ensures Check(claimType, poaType, a).None? <==>
              match claimType
              case NilBill => a == EMPTY
              case FinalBill => ProfitCostFits(a) && DisbursementFits(a)
              case PaymentOnAccount =>
                if poaType == Some(ProfitCost)
                then ProfitCostFits(a) && NoDisbursement(a)
                else NoProfitCost(a) && DisbursementFits(a)
  {
  }

  /** Why a profit cost or a disbursement is wanting where it is allowed: the error a decision is refused with. */
  predicate ProfitCostRefused(a: Amounts, e: ClaimError) {
    var net, gross, vatZero := a.profitNet, a.profitGross, a.profitVatZero;
    match e
    case MissingTotalClaimCost => net.None? && gross.None? && vatZero.None?
    case MixedVat => vatZero.Some? && (net.Some? || gross.Some?)
    case MissingGross => vatZero.None? && net.Some? && gross.None?
    case MissingNet => vatZero.None? && net.None? && gross.Some?
    case NetHigherThanGross => vatZero.None? && net.Some? && gross.Some? && net.value > gross.value
    case _ => false
  }

  predicate DisbursementRefused(a: Amounts, e: ClaimError) {
    var net, gross, vatZero := a.disbursementNet, a.disbursementGross, a.disbursementVatZero;
    match e
    case MissingDisbursementTotal => net.None? && gross.None? && vatZero.None?
    case MissingGross => net.Some? && gross.None?
    case MissingNet => net.None? && gross.Some?
    case DisbursementGrossNotGreater =>
      && net.Some? && gross.Some? && gross.value <= net.value + vatZero.GetOr(0)
      && !(net.value == 0 && (gross.value == 0 || gross.value == vatZero.GetOr(0)))
    case _ => false
  }

  /** A decision is refused for what the kind of claim does not allow or for what a part lacks, profit cost first. */
  lemma RefusedExactly(claimType: ClaimType, poaType: Option<POAType>, a: Amounts, e: ClaimError)
    requires claimType == PaymentOnAccount <==> poaType.Some?
    ensures Check(claimType, poaType, a) == Some(e) <==>
              match claimType
              case NilBill => e == NotAllowedForNilBill && a != EMPTY
              case FinalBill => ProfitCostRefused(a, e) || (ProfitCostFits(a) && DisbursementRefused(a, e))
              case PaymentOnAccount =>
                if poaType == Some(ProfitCost)
                then ProfitCostRefused(a, e) || (ProfitCostFits(a) && !NoDisbursement(a) && e == NotAllowedForPoa)
                else (!NoProfitCost(a) && e == NotAllowedForPoa) || (NoProfitCost(a) && DisbursementRefused(a, e))
  {
  }

  /**
   What a payment is decided with: what is entered, or, for a payment on account with nothing entered, the submitted
   totals as profit costs or as disbursements; if it passes the checks.
   */
  lemma DecidedExactly(claim: Claim, entered: Amounts)
    ensures var submitted := claim.claimType == PaymentOnAccount
                             && entered == Amounts(None, None, None, None, None, None);
            var a := if !submitted then entered
                     else if claim.poaType == Some(ProfitCost)
                     then Amounts(claim.net, claim.gross, claim.vatZero, None, None, None)
                     else Amounts(None, None, None, claim.net, claim.gross, claim.vatZero);
            match Check(claim.claimType, claim.poaType, a)
            case None => Decided(claim, entered) == Ok(a)
            case Some(e) => Decided(claim, entered) == Err(e)
  {
  }
}
