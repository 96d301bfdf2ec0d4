/** Claims, applications and the rules a new claim is checked against. */
module Claims {
  import opened Options
  import opened Money
  import opened Calendar

  datatype ClaimType = PaymentOnAccount | FinalBill | NilBill

  datatype ClaimStatus = Submitted | Accepted | PaidInFull | Rejected | RejectedWithAmendment

  datatype POAType = ProfitCost | ExpertCost | NonExpertDisbursement

  datatype DecisionStatus = Reject | Grant | PayInFull | Pending

  datatype ReasonCode =
    | MaxPoaClaimsExceeded
    | ClaimExceedsSubstantiveCostLimit
    | ProfitCostPoaClaimSubmittedTooEarly
    | ManualRejection

  datatype ClaimError =
    | MissingPoaType
    | PoaTypeNotAllowed
    | NetNotAllowedForBill
    | VatZeroNotAllowedForBill
    | MissingGrossForBill
    | NilBillGrossMustBeZero
    | FinalBillGrossMustBePositive
    | NegativeNet
    | NetHigherThanGross
    | MissingNonProfitCostTotal
    | MissingGross
    | MissingNet
    | MissingTotalClaimCost
    | MixedVat
    | ActiveFinalBillExists
    | NotAllowedForNilBill
    | NotAllowedForPoa
    | MissingDisbursementTotal
    | DisbursementGrossNotGreater

  /** One second is the unit of time. */
  const DAY: int := 86400
  const WINDOW_DAYS: int := 365
  const MAX_PROFIT_COST_POA_CLAIM_COUNT: nat := 4
  const MIN_MONTHS_BEFORE_PROFIT_COST_POA: int := 3
  const AUTO_APPROVAL_MAX_TOTAL: int := 50000_00

  /** A clock reading with the UTC date it falls on. */
  datatype Clock = Clock(at: int, today: Date) {
    predicate Valid() {
      today.Valid() && today.Ordinal() == at / DAY
    }
  }

  /** `costLimit` is in whole pounds. */
  datatype Application = Application(
    costLimit: Option<int>,
    granted: bool,
    withdrawn: bool,
    certificateStart: Option<Date>)
  {
    /** The limit in pence that claims are checked against; 0 until the application is granted. */
    function Limit(): Option<int> {
      if !granted then Some(0)
      else match costLimit
           case None => None
           case Some(pounds) => Some(100 * pounds)
    }
  }

  /** A stored claim. Its id is its position in the claim table. */
  datatype Claim = Claim(
    app: nat,
    reference: string,
    claimType: ClaimType,
    poaType: Option<POAType>,
    status: ClaimStatus,
    submittedAt: int,
    net: Option<int>,
    gross: Option<int>,
    vatZero: Option<int>,
    fundsRemaining: int)
  {
    function Amount(): int {
      ResolveTotal(gross, vatZero, 0).GetOr(0)
    }

    predicate IsPoa() { claimType == PaymentOnAccount }

    predicate IsPaid() { status == PaidInFull }

    predicate IsActiveBill() { !IsPoa() && status in {Submitted, PaidInFull} }

    predicate IsActiveProfitCostPoa() {
      poaType == Some(ProfitCost) && status !in {Rejected, RejectedWithAmendment}
    }
  }

  predicate AwaitingAssessment(status: ClaimStatus) {
    status == Submitted
  }

  /** What a provider enters: exact amounts, not yet rounded to a money column. */
  datatype ClaimForm = ClaimForm(
    claimType: ClaimType,
    poaType: Option<POAType>,
    net: Option<real>,
    gross: Option<real>,
    vatZero: Option<real>)
  {
    function Total(): Option<real> {
      ResolveTotal(gross, vatZero, 0.0)
    }
  }

  // ---------------------------------------------------------------- totals

  function CheckCombination(form: ClaimForm): Option<ClaimError> {
    if form.claimType == PaymentOnAccount && form.poaType.None? then Some(MissingPoaType)
    else if form.claimType != PaymentOnAccount && form.poaType.Some? then Some(PoaTypeNotAllowed)
    else None
  }

  function CheckBillTotals(form: ClaimForm): Option<ClaimError> {
    if form.net.Some? then Some(NetNotAllowedForBill)
    else if form.vatZero.Some? then Some(VatZeroNotAllowedForBill)
    else if form.gross.None? then Some(MissingGrossForBill)
    else if form.claimType == NilBill && form.gross.value != 0.0 then Some(NilBillGrossMustBeZero)
    else if form.claimType == FinalBill && form.gross.value <= 0.0 then Some(FinalBillGrossMustBePositive)
    else None
  }

  function CheckConsistency(form: ClaimForm): Option<ClaimError> {
    if form.net.Some? && form.net.value < 0.0 then Some(NegativeNet)
    else if form.net.Some? && form.gross.Some? && form.net.value > form.gross.value then Some(NetHigherThanGross)
    else None
  }

  function CheckProfitCost(form: ClaimForm): Option<ClaimError> {
    if form.vatZero.Some? && (form.net.Some? || form.gross.Some?) then Some(MixedVat)
    else if form.vatZero.None? && !(form.net.Some? && form.gross.Some?) then
      if form.net.Some? && form.gross.None? then Some(MissingGross) else Some(MissingTotalClaimCost)
    else None
  }

  function CheckNonProfitCost(form: ClaimForm): Option<ClaimError> {
    if form.net.None? && form.gross.None? && form.vatZero.None? then Some(MissingNonProfitCostTotal)
    else if form.net.Some? && form.gross.None? then Some(MissingGross)
    else None
  }

  function Normalized(form: ClaimForm): ClaimForm {
    form.(net := Some(form.net.GetOr(0.0)),
          gross := Some(form.Total().GetOr(0.0)),
          vatZero := Some(form.vatZero.GetOr(0.0)))
  }

  /** The checks in order, and the totals a claim is created with. */
  function ValidateForm(form: ClaimForm): Result<ClaimForm, ClaimError> {
    var combination := CheckCombination(form);
    if combination.Some? then Err(combination.value)
    else if form.claimType != PaymentOnAccount then
      var bill := CheckBillTotals(form);
      if bill.Some? then Err(bill.value) else Ok(form)
    else
      var consistency := CheckConsistency(form);
      if consistency.Some? then Err(consistency.value)
      else if form.poaType == Some(ProfitCost) then
        var profit := CheckProfitCost(form);
        if profit.Some? then Err(profit.value) else Ok(form)
      else
        var other := CheckNonProfitCost(form);
        if other.Some? then Err(other.value) else Ok(Normalized(form))
  }

  /** Which forms are accepted, said without the order of the checks. */
  predicate Acceptable(form: ClaimForm) {
    var ordered := form.net.Some? ==> form.gross.Some? && 0.0 <= form.net.value <= form.gross.value;
    match form.claimType
    case PaymentOnAccount =>
      && form.poaType.Some?
      && ordered
      && (if form.poaType == Some(ProfitCost)
          then form.vatZero.Some? != form.net.Some? && form.net.Some? == form.gross.Some?
          else form.gross.Some? || form.vatZero.Some?)
    case FinalBill =>
      form.poaType.None? && form.net.None? && form.vatZero.None? && form.gross.Some? && form.gross.value > 0.0
    case NilBill =>
      form.poaType.None? && form.net.None? && form.vatZero.None? && form.gross == Some(0.0)
  }

  /** Validation accepts exactly the acceptable forms and never changes what the claim comes to. */
  lemma ValidateFormExact(form: ClaimForm)
    ensures ValidateForm(form).Ok? <==> Acceptable(form)
    ensures match ValidateForm(form)
            case Err(_) => true
            case Ok(v) =>
              && v.claimType == form.claimType && v.poaType == form.poaType
              && v.Total().Some? && v.Total() == form.Total()
  {
  }

  /** Why a form is refused. */
  predicate FormRefused(form: ClaimForm, e: ClaimError) {
    var poa := form.claimType == PaymentOnAccount;
    var typed := poa == form.poaType.Some?;
    var profit := form.poaType == Some(ProfitCost);
    var net, gross, vatZero := form.net, form.gross, form.vatZero;
    var ordered := !(net.Some? && (net.value < 0.0 || (gross.Some? && net.value > gross.value)));
    match e
    case MissingPoaType => poa && form.poaType.None?
    case PoaTypeNotAllowed => !poa && form.poaType.Some?
    case NetNotAllowedForBill => typed && !poa && net.Some?
    case VatZeroNotAllowedForBill => typed && !poa && net.None? && vatZero.Some?
    case MissingGrossForBill => typed && !poa && net.None? && vatZero.None? && gross.None?
    case NilBillGrossMustBeZero =>
      typed && form.claimType == NilBill && net.None? && vatZero.None? && gross.Some? && gross.value != 0.0
    case FinalBillGrossMustBePositive =>
      typed && form.claimType == FinalBill && net.None? && vatZero.None? && gross.Some? && gross.value <= 0.0
    case NegativeNet => typed && poa && net.Some? && net.value < 0.0
    case NetHigherThanGross =>
      typed && poa && net.Some? && net.value >= 0.0 && gross.Some? && net.value > gross.value
    case MixedVat => typed && profit && ordered && vatZero.Some? && (net.Some? || gross.Some?)
    case MissingGross =>
      typed && poa && ordered && net.Some? && gross.None? && (profit ==> vatZero.None?)
    case MissingTotalClaimCost => typed && profit && net.None? && vatZero.None?
    case MissingNonProfitCostTotal =>
      typed && poa && !profit && net.None? && gross.None? && vatZero.None?
    case _ => false
  }

  /** A form is refused with the error that says why. */
  lemma RefusedFormExactly(form: ClaimForm, e: ClaimError)
    ensures ValidateForm(form) == Err(e) <==> FormRefused(form, e)
  {
  }

  /**
   The totals an accepted form ends with: a bill's and a profit cost's as entered; of other costs the net and the
   zero-rated amount as entered or nothing, and the gross, unless it is missing or nothing beside a zero-rated amount,
   which then takes its place.
   */
  lemma AcceptedTotals(form: ClaimForm)
    requires ValidateForm(form).Ok?
    ensures var v := ValidateForm(form).value;
            && v.claimType == form.claimType && v.poaType == form.poaType
            && if form.poaType in {None, Some(ProfitCost)}
               then v.net == form.net && v.gross == form.gross && v.vatZero == form.vatZero
               else && v.net == Some(if form.net.Some? then form.net.value else 0.0)
                    && v.vatZero == Some(if form.vatZero.Some? then form.vatZero.value else 0.0)
                    && v.gross == if form.gross.Some? && (form.gross.value != 0.0 || form.vatZero.None?) then form.gross
                                  else form.vatZero
  {
  }

  /**
   Validating an accepted claim again changes nothing, except for a non-profit-cost
   claim with a negative total: it is accepted, and its normalised totals are refused.
   */
  lemma RevalidationExact(form: ClaimForm)
    requires ValidateForm(form).Ok?
    ensures var v := ValidateForm(form).value;
            ValidateForm(v) == Ok(v)
            <==> (form.poaType in {None, Some(ProfitCost)} || v.Total().value >= 0.0)
  {
  }

  /** A concrete claim of the kind that cannot be validated twice: gross -5 pence, nothing else. */
  lemma NegativeTotalAccepted()
    ensures var form := ClaimForm(PaymentOnAccount, Some(ExpertCost), None, Some(-5.0), None);
            && ValidateForm(form).Ok?
            && ValidateForm(ValidateForm(form).value) == Err(NetHigherThanGross)
  {
  }

  /** The domain claim: its totals are overwritten by normalisation while it is validated. */
  class DomainClaim {
    const claimType: ClaimType
    const poaType: Option<POAType>
    var net: Option<real>
    var gross: Option<real>
    var vatZero: Option<real>

    constructor (form: ClaimForm)
      ensures Form() == form
    {
      claimType, poaType := form.claimType, form.poaType;
      net, gross, vatZero := form.net, form.gross, form.vatZero;
    }

    function Form(): ClaimForm
      reads this
    {
      ClaimForm(claimType, poaType, net, gross, vatZero)
    }

    method NormalizeNonProfitCostTotals()
      modifies this
      ensures Form() == Normalized(old(Form()))
    {
      var total := ResolveTotal(gross, vatZero, 0.0);
      net := Some(if net.Some? then net.value else 0.0);
      gross := Some(if total.Some? then total.value else 0.0);
      vatZero := Some(if vatZero.Some? then vatZero.value else 0.0);
    }

    /** None when the claim is accepted; then its totals are the normalised ones. */
    method Validate() returns (error: Option<ClaimError>)
      modifies this
      ensures match ValidateForm(old(Form()))
              case Ok(v) => error == None && Form() == v
              case Err(e) => error == Some(e) && Form() == old(Form())
    {
      error := CheckCombination(Form());
      if error.Some? { return; }
      if claimType != PaymentOnAccount {
        error := CheckBillTotals(Form());
        return;
      }
      error := CheckConsistency(Form());
      if error.Some? { return; }
      if poaType != Some(ProfitCost) {
        error := CheckNonProfitCost(Form());
        if error.Some? { return; }
        NormalizeNonProfitCostTotals();
      }
      if poaType == Some(ProfitCost) {
        error := CheckProfitCost(Form());
      }
    }

    /** Collects every reason for an automatic rejection, unless the earliest date is beyond the calendar. */
    method ShouldAutoReject(application: Application, existing: seq<Claim>, reference: Clock)
      returns (outcome: Outcome, reasons: seq<ReasonCode>)
      ensures outcome.Raised? <==> EarliestBeyondCalendar(Form(), application)
      ensures outcome.Pass? ==> reasons == RejectionReasons(Form(), application, existing, reference)
    {
      reasons := [];
      if ExceedsPoaCount(Form(), existing, reference.at) {
        reasons := reasons + [MaxPoaClaimsExceeded];
      }
      if ExceedsCostLimit(Form(), application) {
        reasons := reasons + [ClaimExceedsSubstantiveCostLimit];
      }
      if EarliestBeyondCalendar(Form(), application) { return Raised, reasons; }
      if TooEarly(Form(), application, reference.today) {
        reasons := reasons + [ProfitCostPoaClaimSubmittedTooEarly];
      }
      return Pass, reasons;
    }
  }

  // ------------------------------------------------- existing claims and funds

  predicate HasActiveBill(existing: seq<Claim>) {
    exists c | c in existing :: c.IsActiveBill()
  }

  function CountActivePoas(existing: seq<Claim>, cutoff: int): nat {
    if existing == [] then 0
    else
      var last := existing[|existing| - 1];
      CountActivePoas(existing[..|existing| - 1], cutoff)
      + if last.IsActiveProfitCostPoa() && last.submittedAt >= cutoff then 1 else 0
  }

  function PaidTotal(existing: seq<Claim>): int {
    if existing == [] then 0
    else
      var last := existing[|existing| - 1];
      PaidTotal(existing[..|existing| - 1]) + if last.IsPaid() then last.Amount() else 0
  }

  /** A claim's latest decision and cost figures. */
  datatype ApprovedAmount = ApprovedAmount(decision: Option<DecisionStatus>, amount: int) {
    predicate IsApproved() { decision in {Some(Grant), Some(PayInFull)} }
  }

  function ApprovedTotal(amounts: seq<ApprovedAmount>): int {
    if amounts == [] then 0
    else
      var last := amounts[|amounts| - 1];
      ApprovedTotal(amounts[..|amounts| - 1]) + if last.IsApproved() then last.amount else 0
  }

  function AvailableFunds(limit: Option<int>, amounts: seq<ApprovedAmount>): int {
    limit.GetOr(0) - ApprovedTotal(amounts)
  }

  /** Funds after a new claim, as an exact amount; the stored figure is its banker's rounding. */
  function ExactFundsAfter(limit: Option<int>, amounts: seq<ApprovedAmount>, form: ClaimForm): real {
    AvailableFunds(limit, amounts) as real - form.Total().GetOr(0.0)
  }

  // --------------------------------------------------- automatic assessment

  predicate ExceedsPoaCount(form: ClaimForm, existing: seq<Claim>, reference: int) {
    && form.poaType == Some(ProfitCost)
    && CountActivePoas(existing, reference - WINDOW_DAYS * DAY) >= MAX_PROFIT_COST_POA_CLAIM_COUNT
  }

  predicate ExceedsCostLimit(form: ClaimForm, application: Application) {
    && form.claimType == PaymentOnAccount
    && form.Total().Some? && application.Limit().Some?
    && form.Total().value > application.Limit().value as real
  }

  predicate TooEarly(form: ClaimForm, application: Application, today: Date) {
    && form.poaType == Some(ProfitCost)
    && application.certificateStart.Some?
    && var earliest := AddCalendarMonths(application.certificateStart.value, MIN_MONTHS_BEFORE_PROFIT_COST_POA);
       earliest.Some? && today.Before(earliest.value)
  }

  /** The earliest date for a profit-cost claim does not exist, and working it out raises. */
  predicate EarliestBeyondCalendar(form: ClaimForm, application: Application) {
    && form.poaType == Some(ProfitCost)
    && application.certificateStart.Some?
    && AddCalendarMonths(application.certificateStart.value, MIN_MONTHS_BEFORE_PROFIT_COST_POA).None?
  }

  /** That is so for certificates that start in the last three months of the year 9999. */
  lemma BeyondCalendarExactly(form: ClaimForm, application: Application)
    requires application.certificateStart.Some? ==> application.certificateStart.value.Valid()
    ensures EarliestBeyondCalendar(form, application) <==>
            && form.poaType == Some(ProfitCost) && application.certificateStart.Some?
            && application.certificateStart.value.year == 9999 && application.certificateStart.value.month >= 10
  {
    if application.certificateStart.Some? {
      AddCalendarMonthsExact(application.certificateStart.value, MIN_MONTHS_BEFORE_PROFIT_COST_POA);
    }
  }

  function RejectionReasons(form: ClaimForm, application: Application, existing: seq<Claim>,
                            reference: Clock): seq<ReasonCode> {
    (if ExceedsPoaCount(form, existing, reference.at) then [MaxPoaClaimsExceeded] else [])
    + (if ExceedsCostLimit(form, application) then [ClaimExceedsSubstantiveCostLimit] else [])
    + (if TooEarly(form, application, reference.today) then [ProfitCostPoaClaimSubmittedTooEarly] else [])
  }

  predicate ExceedsHardLimit(form: ClaimForm) {
    && form.claimType == PaymentOnAccount
    && form.Total().Some? && form.Total().value > AUTO_APPROVAL_MAX_TOTAL as real
  }

  predicate ExceedsAggregateLimit(form: ClaimForm, application: Application, existing: seq<Claim>) {
    && form.claimType == PaymentOnAccount
    && form.Total().Some? && application.Limit().Some?
    && PaidTotal(existing) as real + form.Total().value > application.Limit().value as real
  }

  predicate RequiresManualReview(form: ClaimForm, application: Application, existing: seq<Claim>) {
    && form.claimType == PaymentOnAccount
    && (ExceedsHardLimit(form) || ExceedsAggregateLimit(form, application, existing))
  }

  predicate EligibleForAutoApproval(form: ClaimForm, application: Application) {
    && form.claimType == PaymentOnAccount
    && form.Total().Some?
    && !ExceedsHardLimit(form)
    && !application.withdrawn
    && application.granted
  }

  /**
   A profit cost is too early while fewer than three whole calendar months have passed: in an earlier month, or in the
   third before both the start's day and the last of the month. On the day itself it no longer is.
   */
  lemma TooEarlyExactly(form: ClaimForm, application: Application, today: Date)
    requires today.Valid() && (application.certificateStart.Some? ==> application.certificateStart.value.Valid())
    requires !EarliestBeyondCalendar(form, application)
    ensures TooEarly(form, application, today) <==>
            && form.poaType == Some(ProfitCost) && application.certificateStart.Some?
            && var start := application.certificateStart.value;
               var months := 12 * today.year + today.month - (12 * start.year + start.month);
               || months < 3
               || (months == 3 && today.day < start.day && Date(today.year, today.month, today.day + 1).Valid())
  {
    if form.poaType == Some(ProfitCost) && application.certificateStart.Some? {
      AddCalendarMonthsExact(application.certificateStart.value, MIN_MONTHS_BEFORE_PROFIT_COST_POA);
    }
  }

  /** Once a profit-cost claim is no longer too early it stays so at every later reading. */
  lemma EarlyOnlyAtFirst(form: ClaimForm, application: Application, before: Clock, after: Clock)
    requires before.Valid() && after.Valid() && before.at <= after.at
    requires application.certificateStart.Some? ==> application.certificateStart.value.Valid()
    requires TooEarly(form, application, after.today)
    ensures TooEarly(form, application, before.today)
  {
    var start := application.certificateStart.value;
    var earliest := AddCalendarMonths(start, MIN_MONTHS_BEFORE_PROFIT_COST_POA).value;
    AddCalendarMonthsExact(start, MIN_MONTHS_BEFORE_PROFIT_COST_POA);
    OrdinalOrders(after.today, earliest);
    OrdinalOrders(before.today, earliest);
    DayMonotone(before.at, after.at);
  }

  lemma DayMonotone(s: int, t: int)
    requires s <= t
    ensures s / DAY <= t / DAY
  {
  }
}
