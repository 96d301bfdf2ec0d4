# Claims, payments and the ledger of the inquests service

This project models the life of a claim for the costs of legal representation at an inquest, and proves what its
payments, its ledger and the jobs around it keep.

A granted application holds claims. A claim is a payment on account (for profit costs, an expert or another
disbursement), a final bill or a nil bill. A submission is checked, stored as awaiting assessment, and may then be
rejected or approved automatically. A caseworker pays a claim in full or rejects it. Paying writes invoice lines.
Paying a final or nil bill also writes one negative line, its number ending in `-R`, for each line of every payment
on account of the application that is paid by then.

## How it is built

| file | content |
|---|---|
| Options, Money, InvoiceNumbers, Calendar | optional values, rounding, invoice numbers as text, calendar months |
| Claims, PayInFull, PaymentExtract | the rules for new claims and decisions, and the invoice lines of a payment |
| Tables | the database as a value: queries, the writes of each transaction, and a serial outcome for each use case |
| UseCases | the use cases as classes over one session with private writes, where any call may raise |
| Consistency, Ledger | the invariant of the committed tables, and what it says of the ledger |
| Assessments, Runs, Payments | any number of assessments interleaved with submissions: lock, fresh read, writes, commit or rollback; and what every paid claim's lines come to |
| Histories, HistoryEvents | the read and the commit behind each paid bill, and what the ledger holds because of them; what the history tells of each claim |
| Submissions, Funds, Forecasts, Windows, AutomaticRuns | what a submission leaves behind, cost limits, the forecast report, the yearly cap, automatic payments |
| ExtractReport, ReportTotals, ReportWindows, CsvStream, ReportClasses | the joins and classes of the payment extract report, its totals, consecutive reports, the report as a chunked stream, and how each line is described in it |
| DuplicateMatching, DuplicateIndex | potential duplicates: the criteria, the one-directional records, queries, backfill |
| HistoryBackfill | the backfill of claim references into history events |
| ApprovalEmails, EmailRuns, EmailCounts | the job that emails about automatic approvals, alone and within runs of the whole service, and how often it emails |
| Witnesses, Scenarios | runs, from an empty service, that reach what the code does not rule out; and a few runs written out to the last cell |

Money is whole pence (`int`). The amounts of a new claim arrive as decimals of any length, because `ClaimCreate` sets no
limit (app/models/claim/index.py:242-253), so there they are exact (`real`, in pence) until a `Numeric(10, 2)` column
rounds them. Times are seconds. A claim's id is its position in its table. Each use case has a function in Tables that
gives its committed outcome. The class methods in UseCases are proved to store exactly that, whichever calls raise and
whether or not a commit that raises took effect, and the theorems about runs are about the functions.

## What the code does that its documentation or intent does not say

Each point is a theorem that says exactly when the promise holds, with a concrete input where it fails.

- A payment on account is taken back by its application's bill exactly if it was paid when the bill's transaction read
  the claims (`Histories.TakenBackExactlyIfPaidAtTheRead`). One that commits between that read and the bill's commit is
  paid and never taken back, because a payment locks its own claim only (`Witnesses.PaidInTheWindowIsReached`).
  Conservation is stated with that term (`Histories.EveryRunConserves`).
- Decision checks accept negative amounts. A bill pays what was decided exactly if no part is negative and the
  zero-rated disbursement lies within the gross, and more otherwise (`PaymentExtract.BillSplitExact`): a bill decided at
  95 pence pays 105 (`PaymentExtract.NegativeBillOverpays`), and a payment on account of minus 5 pence pays plus 5
  (`PaymentExtract.NegativeZeroRatedMisSplits`). A payment on account with a negative total is accepted, although its
  own normalised totals are not (`Claims.RevalidationExact`, `Claims.NegativeTotalAccepted`).
- A gross below half a penny is stored as zero, and the claim then comes to its zero-rated amount. An automatic
  approval stays within the limit exactly if the gross survives or that amount fits too (`Funds.ApprovalWithinLimit`,
  `Funds.VanishingGrossOverspends`).
- The stored funds figure is a rounding of its own. Its sign misleads exactly for an excess of at most half a penny
  (`Funds.StoredFundsTell`, `Funds.QuarterPennyOver`). It differs from the funds recomputed exactly if the total ends in
  half a penny and the funds left after it are odd, or its gross vanished and its zero-rated amount did not
  (`Funds.StoredFundsRecomputed`, `Funds.HalfPennyDisagrees`).
- A paid bill takes its application off the cost-limit forecast only if it is a final bill: one with a paid nil bill
  stays listed exactly while its certificate is live and something of its limit is left
  (`Forecasts.EveryRunListedExactly`, `Witnesses.PaidNilBillStaysListed`).
- Where a certificate starts in the last three months of 9999 the rules for a profit-cost claim raise, exactly there
  (`Claims.BeyondCalendarExactly`): the claim is already stored and waits for a caseworker, whatever the cap says
  (`Witnesses.RulesRaiseAtTheEndOfTime`).
- The cap of four profit-cost claims reads the clock after the claim was stamped. It holds for exactly the windows of
  at most 365 days less the largest lag between the two (`Witnesses.CapExact`); for every longer one there is a run
  that puts five into it (`Witnesses.LagLetsAFifthIn`).
- A new application's names are stripped and lowered by Python, stored ones by the database, which trims spaces only. A
  stored name with a tab matches nothing, not even itself, and of two applications the order of submission decides
  (`DuplicateMatching.TabHidesADuplicate`, `DuplicateMatching.OrderMatters`). Where the database's lower-casing loses
  something of a name, as of a final sigma, the code also finds pairs that are not alike
  (`DuplicateMatching.MatchesExact`, `DuplicateMatching.FinalSigma`). The backfill compares both ways round, so it links
  pairs that creation misses (`DuplicateIndex.BackfillFindsAll`).
- A report whose lookups and lines are read from one state of the database never breaks off
  (`CsvStream.OneStateIsPreChecked`). A payment that commits between the queries, with an earlier time stamp, brings a
  line the lookups lack: the stream breaks off and the rows since the last full chunk are lost
  (`Witnesses.LateCommitBreaksTheStream`).
- Of the reports of two consecutive windows a row is in one, once, exactly if it is stamped in the second or was
  committed when the first was read (`ReportWindows.ConsecutiveWindows`). A payment stamped in the first window and
  committed after its report was read is in neither (`Witnesses.LateRowIsInNeitherReport`).
- The email job promises that one failure does not block the others. It blocks them exactly if a database call left the
  session unusable, since nothing rolls back (`EmailRuns.OneFailureBlocksExactly`, `EmailRuns.TwoClaims`).
- A claim is emailed once for its recorded approval and once more for every run of the job that sent the email and ended
  with no approval committed (`EmailCounts.EveryEmailCounted`, `EmailRuns.LostRecordRepeatsTheEmail`). A commit that
  raises after its effect repeats nothing (`EmailCounts.UnrecordedExactly`).
- A second history backfill updates exactly the events that were given an empty reference
  (`HistoryBackfill.SecondRunUpdatesNothing`); no claim has one, so none fails it.

## Model

| member | source | states |
|---|---|---|
| Money.BankersRound | app/domain/payment_extract.py:15-16 | the rounded value is within half a penny, and even when exactly half a penny away |
| Money.BankersRoundUnique | app/domain/payment_extract.py:15-16 | nearest with ties to even leaves exactly one value |
| Money.BankersRoundOdd | app/domain/payment_extract.py:15-16 | rounding a negated amount negates the rounding |
| Money.BankersRoundMonotone | app/domain/payment_extract.py:15-16 | a larger amount never rounds to less |
| Money.BankersRoundOfWhole | app/domain/payment_extract.py:15-16 | whole pence are left alone, so rounding twice is rounding once |
| Money.StoreRound | app/models/claim/index.py:38-46 | a two-decimal column keeps the nearest penny, ties away from zero |
| Money.ResolveStored | app/domain/claim_total.py:4-11 | resolving a total and storing it commute when the gross is whole pence |
| Money.RatesNeverTie | app/domain/constants/claims.py:11-12 | neither 0.8 nor 0.8 times 1.2 of whole pence ever lands on half a penny |
| Money.StandardRatedError | app/domain/payment_extract.py:39-41 | one 20% VAT line is within 12/25 of a penny of 96% of the net |
| Money.ZeroRatedError | app/domain/payment_extract.py:36-38 | one zero-rated line is within 2/5 of a penny of 80% |
| Money.StandardRatedDrift | app/domain/payment_extract.py:39-41 | n such lines together drift at most 12n/25 of a penny |
| Money.PaymentsBelowCost | app/domain/payment_extract.py:36-41 | a payment of a non-negative cost is between nothing and the cost |
| InvoiceNumbers.InvoiceNumberInjective | app/domain/payment_extract.py:47 | for references of one length, an invoice number determines reference and sequence number, beyond 999 too |
| InvoiceNumbers.RecoupmentNumberInjective | app/domain/payment_extract.py:199 | a recoupment number determines the number it takes back |
| InvoiceNumbers.OwnNumberIsNoRecoupment | app/domain/payment_extract.py:199 | no claim's own number is ever a recoupment number |
| InvoiceNumbers.InvoiceNumberText | app/domain/payment_extract.py:47 | the reference, an underscore and the sequence number in decimal, with three digits or all it takes |
| InvoiceNumbers.NumbersAsText | app/domain/payment_extract.py:199 | the text of an invoice number of one digit, of one of four, and of a recoupment |
| Calendar.AddCalendarMonthsExact | app/domain/date_utils.py:12-18 | the result is a valid date exactly that many months on, with the largest day not above the start's; it fails only outside years 1 to 9999 |
| Calendar.AddCalendarMonthsMonotone | app/domain/date_utils.py:12-18 | a later start never gives an earlier result |
| Calendar.AddCalendarMonthsNotInjective | app/domain/date_utils.py:12-18 | two starts can give one result, so adding months cannot be undone |
| Calendar.OrdinalOrders | app/domain/claim.py:317-324 | day numbers order valid dates as the calendar does |
| Claims.ValidateFormExact | app/domain/claim.py:145-162 | which totals are accepted, without the order of the checks; the accepted claim comes to what was entered |
| Claims.RefusedFormExactly | app/domain/claim.py:145-162 | which error each refused form is refused with |
| Claims.AcceptedTotals | app/domain/claim.py:333-349 | the three totals of an accepted form, from those entered |
| Claims.RevalidationExact | app/domain/claim.py:333-349 | checking an accepted claim again accepts it unchanged, except exactly a negative non-profit-cost total |
| Claims.NegativeTotalAccepted | app/domain/claim.py:351-363 | a concrete claim of that kind |
| Claims.DomainClaim.NormalizeNonProfitCostTotals | app/domain/claim.py:333-349 | the three totals after normalising in place |
| Claims.DomainClaim.Validate | app/domain/claim.py:145-162 | the first failing check and no change, or the totals of the validated claim |
| Claims.DomainClaim.ShouldAutoReject | app/domain/claim.py:279-303 | every reason that applies, in order; it raises exactly when the earliest date is beyond the calendar |
| Claims.BeyondCalendarExactly | app/domain/date_utils.py:12-18 | that is so exactly for a profit-cost claim under a certificate that starts in the last three months of 9999 |
| Claims.EarlyOnlyAtFirst | app/domain/claim.py:305-325 | early rejection holds on an initial run of times and never again |
| Claims.TooEarlyExactly | app/domain/claim.py:305-325 | a profit cost is too early exactly while fewer than three calendar months have passed since the certificate began; on the day itself it is not |
| PayInFullAmounts.CheckExact | app/domain/pay_in_full.py:66-173 | a decision passes exactly when the kind of claim allows each part and each part present fits |
| PayInFullAmounts.RefusedExactly | app/domain/pay_in_full.py:66-173 | which error each refused decision is refused with |
| PayInFullAmounts.DecidedExactly | app/use_cases/pay_in_full_claim.py:126-142 | a payment is decided with the amounts entered, or, for a payment on account with none entered, with those submitted, field by field |
| PaymentExtract.BuildDisbursementExtract | app/domain/payment_extract.py:138-177 | the loop-free builder with its running sequence yields the specified lines |
| PaymentExtract.BuildRecoupmentExtract | app/domain/payment_extract.py:187-206 | one line for each original, numbered on from the start |
| PaymentExtract.BuildBillExtract | app/use_cases/pay_in_full_claim.py:248-284 | fees then disbursements with a running sequence, or the nil line |
| PaymentExtract.SplitConserved | app/domain/payment_extract.py:55-94 | disbursement lines come to the resolved total exactly when the zero-rated amount is not negative and a non-zero gross covers it |
| PaymentExtract.NegativeZeroRatedMisSplits | app/domain/pay_in_full.py:121-173 | an accepted decision of minus 5 pence that pays plus 5 |
| PaymentExtract.FeesConserved | app/domain/payment_extract.py:97-120 | accepted, non-negative profit costs: the fees line is the total, positive, and absent only for nothing |
| PaymentExtract.DisbursementsConserved | app/domain/payment_extract.py:138-177 | accepted, non-negative disbursements: at most two positive lines with the resolved total |
| PaymentExtract.NilMeansNothing | app/domain/pay_in_full.py:41-51 | an accepted, non-negative decision is nil exactly when it comes to nothing |
| PaymentExtract.BillSplitConserved | app/use_cases/pay_in_full_claim.py:248-284 | a bill's own lines are one to three, come to the decided money, and are all positive but for the single zero line of a nil bill |
| PaymentExtract.BillSplitExact | app/use_cases/pay_in_full_claim.py:248-284 | an accepted bill, negative amounts included, never pays less than was decided, and exactly that precisely when no part is negative and the zero-rated disbursement lies within the gross |
| PaymentExtract.NegativeBillOverpays | app/use_cases/pay_in_full_claim.py:248-284 | an accepted final bill decided at 95 pence that pays 105 |
| PaymentExtract.BillSplitByTax | app/use_cases/pay_in_full_claim.py:248-284 | the zero-rated lines come to what was decided as zero-rated, the standard-rated ones to the rest |
| PaymentExtract.BillLinesNumbered | app/use_cases/pay_in_full_claim.py:251-282 | a bill's own lines are numbered 1, 2, ... under its reference |
| PaymentExtract.PoaLinesNumbered | app/domain/payment_extract.py:209-231 | so are those of a payment on account |
| PaymentExtract.PoaLinesExact | app/domain/payment_extract.py:209-231 | a profit cost gives one line of 80% of the zero-rated amount or 96% of the net, to the nearest penny; other costs at most two lines, the standard-rated part first, with exactly those parts; all dated by the submission |
| PaymentExtract.PoaDisbursementsConserved | app/domain/payment_extract.py:209-231 | other costs that pass the checks are paid to the total decided |
| PaymentExtract.BillLinesExact | app/use_cases/pay_in_full_claim.py:248-284 | a bill's own lines: kinds, tax codes, amounts, order and date, for every decision |
| PaymentExtract.PoaPaysAtMostClaimed | app/domain/payment_extract.py:209-231 | a payment on account with covered, non-negative amounts pays at most what was claimed |
| PaymentExtract.RecoupmentNegates | app/domain/payment_extract.py:187-206 | recoupment lines come to minus the originals |
| PaymentExtract.RecoupmentAppend | app/use_cases/pay_in_full_claim.py:293-315 | recouping claim after claim with an advancing sequence is recouping all lines at once |
| Tables.FindByReference | app/adapters/claim_repository_adapter.py:252-260 | a claim with the reference, or none has it |
| Tables.Recoupable | app/use_cases/pay_in_full_claim.py:360-375 | exactly the other paid payments on account of the application, each once |
| Consistency.SubmittingKeeps | app/use_cases/create_claim.py:122-434 | every submission keeps the invariant, whichever of its transactions commit |
| Consistency.CreatedClaimKeeps | app/use_cases/create_claim.py:206-254 | a new claim keeps references unique and at most one active bill |
| Consistency.PaidKeeps | app/use_cases/pay_in_full_claim.py:144-209 | every payment that fits keeps it, recoupments included |
| Consistency.RejectedManuallyKeeps | app/use_cases/reject_claim.py:71-111 | so does every rejection |
| Ledger.OnePaidBill | app/domain/claim.py:164-176 | an application never has two active bills |
| Ledger.LinesSplit | app/use_cases/pay_in_full_claim.py:217-246 | a claim's ledger lines are its own lines numbered from 1, then one recoupment line for each line recouped |
| Ledger.SequencesContiguous | app/models/claim/index.py:188 | a claim's sequence numbers are 1, 2, ..., n |
| Ledger.RecoupedExactly | app/domain/payment_extract.py:187-206 | each line of a recouped claim has a line of the bill with its number plus `-R`, opposite amount, same tax code, dated by the decision |
| Ledger.RecoupmentOrigin | app/use_cases/pay_in_full_claim.py:286-315 | each recoupment line names a line of a payment on account the bill recouped |
| Ledger.RecoupedByOne | app/use_cases/pay_in_full_claim.py:286-315 | no payment on account is recouped by two bills |
| Ledger.NumbersDiffer | app/models/claim/index.py:189 | two lines with one invoice number are the same line of the same claim |
| Ledger.UniqueConstraints | app/models/claim/index.py:187-190 | both unique constraints hold over the whole table |
| Ledger.ConservedWithoutBill | app/use_cases/pay_in_full_claim.py:217-246 | without one it comes to the paid payments on account |
| Ledger.PaidBillComesTo | app/use_cases/pay_in_full_claim.py:248-284 | a paid bill's own lines never come to less than was decided, and to exactly that precisely when no part is negative and the zero-rated disbursement lies within the gross; a nil bill's come to nothing |
| UseCases.Session.Commit | app/adapters/claim_repository_adapter.py:239-243 | what others see becomes what the session sees when the commit completes or raises after its effect, and stays when it raises before |
| UseCases.Session.Rollback | app/adapters/claim_repository_adapter.py:242-243 | the session sees what is committed |
| UseCases.CreateClaimUseCase.Check | app/use_cases/create_claim.py:123-209 | the first failing check, or the claim with its normalised totals |
| UseCases.CreateClaimUseCase.TryCreate | app/use_cases/create_claim.py:215-254 | claim and event are stored together exactly when the one commit took effect, else nothing is |
| UseCases.CreateClaimUseCase.TryConfirm | app/use_cases/create_claim.py:284-303 | the confirmation is stored exactly when its commit took effect |
| UseCases.CreateClaimUseCase.TryAutoReject | app/use_cases/create_claim.py:333-360 | decision, all reasons, status and event together, exactly when the commit took effect, else nothing |
| UseCases.CreateClaimUseCase.TryAutoApprove | app/use_cases/create_claim.py:383-420 | decision, amounts, lines, status and event together, exactly when the commit took effect, else nothing |
| UseCases.CreateClaimUseCase.Assess | app/use_cases/create_claim.py:316-432 | the automatic decision that the verdict calls for, stored exactly when its commit took effect |
| UseCases.CreateClaimUseCase.Execute | app/use_cases/create_claim.py:122-434 | whatever raises, the stored tables are the prescribed outcome of the transactions that took effect: those reported, and those whose commit raised after its effect; nothing when no commit was called; all due ones when nothing raises |
| UseCases.PayInFullClaimUseCase.RecoupmentExtract | app/use_cases/pay_in_full_claim.py:286-315 | the loop over claims with its running sequence yields the recoupment of all their lines |
| UseCases.PayInFullClaimUseCase.PaymentExtract | app/use_cases/pay_in_full_claim.py:217-240 | the lines of a payment as the session sees the tables |
| UseCases.PayInFullClaimUseCase.TryPay | app/use_cases/pay_in_full_claim.py:144-209 | the whole payment is stored exactly when the commit took effect, else nothing; computed after the claim itself was marked paid, the lines are those from before |
| UseCases.PayInFullClaimUseCase.Execute | app/use_cases/pay_in_full_claim.py:109-215 | the serial payment, stored exactly when a commit was called and took effect, else no change; with the error the checks call for |
| UseCases.RejectClaimUseCase.TryReject | app/use_cases/reject_claim.py:71-111 | the whole rejection is stored exactly when the commit took effect, else nothing |
| UseCases.RejectClaimUseCase.Execute | app/use_cases/reject_claim.py:54-114 | the serial rejection, stored exactly when a commit was called and took effect, else no change |
| UseCases.PaidStatusNeutral | app/use_cases/pay_in_full_claim.py:157-167 | marking the claim paid before the lines are computed changes none of them |
| Submissions.SubmissionAtomic | app/use_cases/create_claim.py:215-432 | nothing, a submitted claim with no decision or lines, or one complete automatic decision; with rejection reasons never a payment |
| Submissions.StoredAsEntered | app/adapters/claim_repository_adapter.py:130-146 | each stored total is within half a penny of the amount entered for it, ties away from zero, and absent exactly if that is; other costs have nothing for a missing net or zero-rated amount, and the amount claimed as gross |
| Submissions.ApprovalPays | app/use_cases/create_claim.py:383-406 | an automatic approval pays the totals stored with the claim, as profit costs or as disbursements |
| Submissions.RefusedExactly | app/use_cases/create_claim.py:123-209 | which error each refused submission is refused with |
| Submissions.SubmissionAccepted | app/use_cases/create_claim.py:123-209 | which submissions pass, without the order of the checks |
| Submissions.VerdictExact | app/domain/claim.py:178-277 | when the rules raise, when a claim is rejected and with which reasons in which order, and exactly when it is approved; bills are always held |
| Assessments.ApplyKeeps | app/use_cases/pay_in_full_claim.py:116-215 | every step of every transaction keeps tables, locks and private writes consistent |
| Assessments.RunKeeps | app/use_cases/pay_in_full_claim.py:116-215 | so does every sequence of steps |
| Assessments.StartKeeps | app/adapters/claim_repository_adapter.py:252-260 | a locked, fresh read leaves one holder for each locked claim, and only claims awaiting assessment |
| Assessments.WritingKeeps | app/use_cases/pay_in_full_claim.py:162-167 | the lines a payment writes fit what it read |
| Assessments.TxSurvives | app/adapters/claim_repository_adapter.py:252-260 | a commit elsewhere leaves a running assessment's private writes valid |
| Runs.EveryRunConsistent | app/use_cases/pay_in_full_claim.py:116-215 | after every run of submissions and interleaved assessments the invariant holds |
| Runs.EveryRunOneDecision | app/use_cases/pay_in_full_claim.py:123-124 | each claim has at most one decision; submitted, paid and rejected are none, one payment and one rejection |
| Runs.DecidedForever | app/use_cases/reject_claim.py:68-69 | a decided claim and its lines never change again |
| Runs.LaterAssessmentsConflict | tests/README.md:71-78 | once one assessment committed, every later one of that claim conflicts |
| Runs.AssessableExactly | app/use_cases/pay_in_full_claim.py:117-124 | the claim of that application and reference, if it is submitted; otherwise a conflict, or no such claim |
| Runs.LockExactly | app/adapters/claim_repository_adapter.py:252-260 | an assessment waits exactly while another holds the row with the reference, and then acquires the claim or fails for it or for the amounts |
| Runs.CommitFrees | app/adapters/claim_repository_adapter.py:239-240 | a commit frees the claim and leaves the other transactions as they are |
| Runs.RollbackFrees | app/adapters/claim_repository_adapter.py:242-243 | so does a rollback, and the tables stay |
| Runs.WriteExactly | app/use_cases/pay_in_full_claim.py:162-167 | a payment whose lines are refused ends; otherwise it holds them unseen |
| Runs.EveryRunUnique | app/models/claim/index.py:187-190 | after every run both unique constraints hold and sequence numbers have no gap |
| Runs.BillSeesCommitted | app/use_cases/pay_in_full_claim.py:366-375 | a bill sees exactly the payments on account committed by then |
| Runs.NotSeenBeforeCommit | app/use_cases/pay_in_full_claim.py:366-375 | an uncommitted payment on account is in no bill's view |
| Runs.PaidInTheWindow | app/use_cases/pay_in_full_claim.py:366-375 | whenever a payment on account is written while the bill of another transaction is past its read, committing both pays both and takes nothing back |
| Runs.SerialPayment | app/use_cases/pay_in_full_claim.py:109-215 | a payment's interleavable steps, run back to back, are the serial payment |
| Runs.SerialRejection | app/use_cases/reject_claim.py:54-114 | so are a rejection's |
| Histories.ViewHasARead | app/use_cases/pay_in_full_claim.py:366-375 | what a running bill holds as its view is what one earlier step of the run read: exactly the payments on account paid at that step |
| Histories.EveryBillHasAHistory | app/use_cases/pay_in_full_claim.py:109-215 | after every run each paid bill was paid by one commit of a transaction that read the claims earlier, still submitted, and its record holds exactly the payments on account paid at that read |
| Histories.RunCarries | app/use_cases/pay_in_full_claim.py:123-124 | from any step to the end of a run a claim keeps all but its status, and once decided that and its lines too |
| Histories.EveryRunConserves | app/use_cases/pay_in_full_claim.py:217-315 | after every run with a paid bill the ledger comes to its own lines plus the payments on account paid now and not yet paid at the bill's read |
| Histories.TakenBackExactlyIfPaidAtTheRead | app/use_cases/pay_in_full_claim.py:286-315 | a line of a payment on account has exactly one row of the whole ledger against it, of opposite amount and with its tax code, if it was paid at that read, and none otherwise |
| HistoryEvents.EveryRunRecorded | app/use_cases/create_claim.py:241-250 | after every run the history tells of each claim one submission, nothing more while it waits, and once it is decided one outcome: automatic or by a caseworker, paid or rejected, as its status and reasons say |
| Payments.EveryRunPaysPoas | app/domain/payment_extract.py:209-231 | after every run each paid payment on account has just the lines that pay the amounts of its decision |
| Payments.EveryRunPaysBills | app/use_cases/pay_in_full_claim.py:217-284 | after every run each paid bill has the lines that pay the amounts of its accepted decision, then only recoupments |
| Scenarios.BillAfterPayment | app/use_cases/pay_in_full_claim.py:109-315 | all tables after a payment on account and then the bill that takes it back |
| Scenarios.ApprovedAutomatically | app/use_cases/create_claim.py:383-420 | all tables after an approved profit cost of 100 pounds net, paid 96 |
| Scenarios.RejectedAutomatically | app/use_cases/create_claim.py:333-360 | all tables after a claim rejected for two reasons |
| Scenarios.RejectedByCaseworker | app/use_cases/reject_claim.py:71-111 | all tables after a caseworker's rejection |
| Funds.ApprovedTotalAdds | app/domain/claim.py:91-104 | funds are used by exactly the claims whose latest decision grants or pays them |
| Funds.CountsAgree | app/domain/claim.py:91-104 | funds used by latest decision equal funds used by claim status |
| Forecasts.ForecastAgrees | app/domain/cost_limit_forecast_report.py:55-65 | the forecast's remainder equals the available funds |
| Forecasts.PaidBillDelists | app/domain/cost_limit_forecast_report.py:48-53 | an application with a paid bill counts as having a paid final bill exactly if that bill is one |
| Forecasts.EveryRunListedExactly | app/domain/cost_limit_forecast_report.py:68-77 | after every run an application with a paid bill is on the forecast exactly when that is a nil bill, the certificate is live, and the paid claims are below the limit |
| Witnesses.PaidNilBillStaysListed | app/domain/cost_limit_forecast_report.py:48-53 | a run from an empty service that pays a nil bill and leaves its application on every forecast |
| Funds.AggregateIsNegativeFunds | app/domain/claim.py:234-258 | a claim exceeds the aggregate limit exactly when the exact funds after it are negative |
| Funds.StoredFundsTell | app/use_cases/create_claim.py:436-456 | the stored figure is negative exactly then too, unless the excess is at most half a penny; always for whole pence |
| Funds.QuarterPennyOver | app/use_cases/create_claim.py:456 | an excess that is stored as zero |
| Funds.StoredAmountIs | app/domain/claim_total.py:4-11 | a stored claim comes to the rounded total, unless its gross vanished in storing |
| Funds.ApprovalAdds | app/use_cases/create_claim.py:375-421 | an approval adds one paid claim, its decision with the stored amounts, and its lines, which can always be built |
| Funds.ApprovalWithinLimit | app/domain/claim.py:234-258 | after an automatic approval the paid claims are within a set limit, exactly unless the gross vanished and the zero-rated amount does not fit |
| Funds.VanishingGrossOverspends | app/domain/claim_total.py:4-11 | a submission of that kind |
| Funds.StoredFundsRecomputed | app/use_cases/create_claim.py:436-456 | the figure stored with an approved claim equals the funds recomputed right after, exactly when a total that ends in half a penny leaves an even number of pence, and a gross that vanished leaves no zero-rated amount |
| Funds.WholePenceAgree | app/use_cases/create_claim.py:436-456 | whole pence always pass that test |
| Funds.HalfPennyDisagrees | app/use_cases/create_claim.py:456 | a submission of half a penny that is approved and stored with funds one penny above those recomputed |
| Windows.RuleCountsWindow | app/domain/claim.py:201-210 | a window after the cutoff holds no more than the rule counts |
| Windows.RuleCountsExactly | app/domain/claim.py:193-211 | the rule counts exactly the claims of the application that are not rejected and stamped at the cutoff or later |
| Windows.SubmissionKeepsCap | app/use_cases/create_claim.py:318-361 | a submission keeps the cap if its rules do not raise and its rejection, when due, commits |
| Windows.EveryRunCapped | app/domain/claim.py:193-211 | after every such run each window of 365 days, less the largest lag between stamp and rule, holds at most four active profit-cost claims |
| Witnesses.LagLetsAFifthIn | app/use_cases/create_claim.py:319 | for every lag and every longer window there is a run from an empty service, with valid clocks, that puts five claims into it |
| Witnesses.CapExact | app/domain/claim.py:193-211 | all runs with the lag keep the cap in every window of a length exactly when the length is at most 365 days less the lag |
| Witnesses.PaidInTheWindowIsReached | app/use_cases/pay_in_full_claim.py:366-375 | a run from an empty service after which a payment on account and the bill are both paid, nothing was taken back, and the ledger exceeds the bill's own lines by the payment |
| Witnesses.RulesRaiseAtTheEndOfTime | app/use_cases/create_claim.py:318-322 | a run whose one claim would be approved under another certificate and stays submitted, undecided |
| Forecasts.EveryRunCountsAgree | app/domain/cost_limit_forecast_report.py:55-65 | after every run the three counts of used funds agree |
| AutomaticRuns.ApprovalPaysAtMostClaimed | app/use_cases/create_claim.py:390-406 | an automatic payment of a covered claim pays at most what it comes to |
| AutomaticRuns.CoveredWithinLimit | app/domain/claim.py:234-258 | a covered claim approved automatically leaves the paid claims within the limit |
| AutomaticRuns.AutomaticNeverOverspends | app/use_cases/create_claim.py:375-421 | where an application is paid only automatically, for covered claims, and its limit is not lowered, neither its paid claims nor its invoice lines exceed the limit it ends with, whatever is done with other applications |
| ExtractReport.OneOriginal | app/adapters/claim_repository_adapter.py:409-416 | a recoupment row joins exactly one original, of the same application, with opposite amount and same tax code |
| ExtractReport.RowReportedOnce | app/domain/payment_extract_report.py:46-70 | a ledger row gives one classified report row; a recoupment has its original's class and cancels it |
| ExtractReport.EveryRunReportedOnce | app/adapters/claim_repository_adapter.py:399-424 | after every run the report of any window has one classified row for each ledger row of it, in order |
| ExtractReport.EveryRunClassesAgree | app/domain/payment_extract_report.py:46-70 | after every run a recoupment row is reported under the class of its one original, with the opposite amount |
| ReportTotals.EveryRunCancels | app/domain/payment_extract_report.py:14-22 | after every run, for each paid bill and each model number, the recoupment rows of its application come to minus the rows of the payments on account it recouped |
| ReportClasses.EveryRunDescribes | app/domain/payment_extract_report.py:20-70 | after every run, the description and the model number of each row, in words, by its kind and the kind of its claim or original's claim |
| ReportClasses.EveryRunReportsDecided | app/domain/payment_extract_report.py:46-52 | after every run a paid bill's own rows come to the profit costs decided under one model number and to the disbursements decided under the other |
| ReportWindows.ListedOnce | app/adapters/claim_repository_adapter.py:399-424 | after every run the report of a window lists a ledger row stamped within it exactly once, and no other |
| ReportWindows.ConsecutiveWindows | app/adapters/claim_repository_adapter.py:420-423 | of two consecutive windows read at two points of a run, a row is listed once exactly if stamped in the second or committed when the first was read, else in neither |
| Witnesses.LateRowIsInNeitherReport | app/adapters/claim_repository_adapter.py:420-423 | a run and two consecutive windows whose reports both lack a row of the ledger |
| ExtractReport.PayingDecisionsExact | app/adapters/claim_repository_adapter.py:580-600 | the decisions the OGD report joins to a claim are exactly its payments |
| ExtractReport.EveryRunOgdOnce | app/adapters/claim_repository_adapter.py:580-600 | after every run each ledger row joins exactly one paying decision |
| CsvStream.BuildFirmNameLookup | app/use_cases/generate_payment_extract_report.py:60-84 | succeeds exactly when every code has a named last entry, and then names as the service does; else the first code without a name |
| CsvStream.FirmNameExact | app/use_cases/generate_payment_extract_report.py:70 | a firm's name is that of its last entry |
| CsvStream.BuildClassificationLookup | app/use_cases/generate_payment_extract_report.py:86-105 | succeeds exactly when every type classifies, with exactly those types; else the first that does not |
| CsvStream.BuildRow | app/use_cases/generate_payment_extract_report.py:147-174 | a row exactly for a pre-checked line, with as many cells as the header |
| CsvStream.RowCells | app/use_cases/generate_payment_extract_report.py:156-174 | what stands under each of the twelve headers |
| CsvStream.TextBuffer.Drain | app/use_cases/generate_payment_extract_report.py:177-181 | all that was written, leaving the buffer as new |
| CsvStream.StreamCsv | app/use_cases/generate_payment_extract_report.py:107-136 | completes exactly when every line was pre-checked, with the specified chunks; otherwise the full chunks before the first bad line |
| CsvStream.StreamIsWhole | app/use_cases/generate_payment_extract_report.py:113-127 | the chunks together are the header and all rows written at once |
| CsvStream.ChunksAreFull | app/use_cases/generate_payment_extract_report.py:122-127 | no chunk is empty and every one but the last has exactly 500 rows |
| CsvStream.Execute | app/use_cases/generate_payment_extract_report.py:37-58 | starts exactly when the lookups succeed, completes exactly when every line has a firm name and a looked-up type, and from the same rows equals the report written without lookups |
| CsvStream.OneStateIsPreChecked | app/use_cases/generate_payment_extract_report.py:44-53 | lookups and lines read from one state of the database cover each other |
| Witnesses.LateCommitBreaksTheStream | app/use_cases/generate_payment_extract_report.py:44-53 | lookups read before a payment commits and lines after it: the stream starts and breaks off with nothing sent |
| CsvStream.EveryRunClassifies | app/use_cases/generate_payment_extract_report.py:86-105 | for every ledger a run can reach, only a missing firm name can stop the report |
| DuplicateMatching.NamesAgree | app/adapters/application_repository_adapter.py:474-479 | a stored name equals a checked one exactly when Python makes the checked one equal to what the database made of the stored one and would leave that alone; where the database loses nothing, exactly when the two are alike and the stored one is clean |
| DuplicateMatching.MatchesExact | app/adapters/application_repository_adapter.py:463-486 | the code's match is at least two of four criteria with Python's normaliser on both sides, except exactly the pairs it misses and those it confuses; it confuses none where the database loses nothing of the stored names |
| DuplicateMatching.AlikeExactly | app/adapters/application_repository_adapter.py:463-486 | two are alike exactly when some two of these hold: one date of birth, one date of death, one coroner's reference that both have, alike names |
| DuplicateMatching.MatchesPairs | app/adapters/application_repository_adapter.py:463-503 | the same of the code's check, with names as it compares them |
| DuplicateMatching.NamesDecide | app/adapters/application_repository_adapter.py:463-486 | names decide exactly when one of the other three criteria holds |
| DuplicateMatching.ReferenceDecides | app/adapters/application_repository_adapter.py:469-473 | two applications matched by name and coroner's reference alone |
| DuplicateMatching.StripExact | app/adapters/application_repository_adapter.py:474-479 | stripping takes off what is to be stripped at both ends and nothing else |
| DuplicateMatching.WhitespaceExact | app/adapters/application_repository_adapter.py:474-479 | the 29 characters that are stripped |
| DuplicateMatching.AlikeIsSymmetric | app/adapters/application_repository_adapter.py:463-486 | being alike does not depend on the order |
| DuplicateMatching.OrderMatters | app/adapters/application_repository_adapter.py:474-479 | the code's match depends on the order exactly when names decide and, of two alike, just one is clean, or two that are not alike are confused one way round only |
| DuplicateMatching.FinalSigma | app/adapters/application_repository_adapter.py:474-479 | a stored name in Greek capitals that is missed when entered again and confused with another spelling |
| DuplicateMatching.TabHidesADuplicate | app/adapters/application_repository_adapter.py:474-479 | concrete applications of both kinds |
| DuplicateIndex.Identified | app/adapters/application_repository_adapter.py:488-503 | exactly the other applications matched, each once |
| DuplicateIndex.Repository.CreateDuplicateRecords | app/adapters/application_repository_adapter.py:505-528 | one record for each id, after the existing ones |
| DuplicateIndex.Repository.GetPotentialDuplicateApplicationIds | app/adapters/application_repository_adapter.py:538-585 | the ids linked in either direction, for a submitted application |
| DuplicateIndex.Repository.GetApplicationBacklogRecords | app/adapters/application_repository_adapter.py:391-454 | the dictionary filled in any order: every pending application with the references of its linked pending ones |
| DuplicateIndex.Repository.CreateApplication | app/use_cases/create_application.py:46-92 | application and records together, or nothing |
| DuplicateIndex.Repository.Decide | app/use_cases/grant_decision.py:45-55 | a merits decision changes that decision only |
| DuplicateIndex.Repository.BackfillDuplicateApplications | app/db/migrations/versions/7cc4f2bbc722_backfill_duplicate_applications.py:25-54 | every record stays; a pair matched either way round and not recorded gets exactly one record; no other pair changes |
| DuplicateIndex.EveryRunExact | app/adapters/application_repository_adapter.py:505-528 | after every run records link exactly the pairs whose later application matches the earlier, once |
| DuplicateIndex.EveryRunFindsAll | app/adapters/application_repository_adapter.py:538-585 | a submitted application's potential duplicates are all others so matched, and none for a decided one |
| DuplicateIndex.CreationFinds | app/use_cases/create_application.py:46-92 | a new application is pending and at once has as potential duplicates exactly the earlier ones it matches |
| DuplicateIndex.EveryRunAgainstAlike | app/adapters/application_repository_adapter.py:538-585 | against comparing every pair by one rule, only the missed pairs are lost and only the confused ones extra |
| DuplicateIndex.EveryRunSymmetric | app/adapters/application_repository_adapter.py:538-585 | potential duplicates are symmetric among submitted applications |
| DuplicateIndex.PendingPairsExact | app/adapters/application_repository_adapter.py:404-436 | the pairs behind the backlog are those recorded either way round between two different pending applications |
| DuplicateIndex.EveryRunBacklog | app/adapters/application_repository_adapter.py:404-436 | the backlog lists beside an application the references of just its pending potential duplicates |
| DuplicateIndex.BackfillStep | app/db/migrations/versions/7cc4f2bbc722_backfill_duplicate_applications.py:42-52 | one round settles every pair of its application and leaves the others |
| DuplicateIndex.BackfillFindsAll | app/db/migrations/versions/7cc4f2bbc722_backfill_duplicate_applications.py:25-54 | afterwards a submitted application finds exactly the others that are alike and not missed both ways round, or confused either way |
| DuplicateIndex.SecondBackfillAddsNothing | app/db/migrations/versions/7cc4f2bbc722_backfill_duplicate_applications.py:25-54 | a second backfill adds no record |
| HistoryBackfill.PickNearest | app/db/migrations/versions/idds_867_backfill_hist_ref.py:56-70 | the reference all nearest candidates share, or none if they share none |
| HistoryBackfill.PickIgnoresOrder | app/db/migrations/versions/idds_867_backfill_hist_ref.py:56-70 | order and repetition of candidates do not matter |
| HistoryBackfill.PickRestoresTheTruth | app/db/migrations/versions/idds_867_backfill_hist_ref.py:11-16 | an event close to its own claim gets that claim's reference if every other is more than twice as far from it |
| HistoryBackfill.BuildSubmittedIndex | app/db/migrations/versions/idds_867_backfill_hist_ref.py:73-80 | each lookup is a filter of all claims |
| HistoryBackfill.BuildAssessmentIndex | app/db/migrations/versions/idds_867_backfill_hist_ref.py:83-99 | each lookup is a filter of all decisions joined to their claims |
| HistoryBackfill.History.BackfillClaimReferences | app/db/migrations/versions/idds_867_backfill_hist_ref.py:102-161 | every event becomes its backfilled form, and the count is that of the events found |
| HistoryBackfill.CountFoundExact | app/db/migrations/versions/idds_867_backfill_hist_ref.py:102-161 | the count returned is the number of events given a reference |
| HistoryBackfill.CandidatesExact | app/db/migrations/versions/idds_867_backfill_hist_ref.py:137-152 | candidates are exactly the claims of the same application, type and decision |
| HistoryBackfill.IncompleteExactly | app/db/migrations/versions/idds_867_backfill_hist_ref.py:128-150 | which events are looked at |
| HistoryBackfill.NormalDecisionExact | app/db/migrations/versions/idds_867_backfill_hist_ref.py:43-53 | two decision values are the same exactly if equal, or one is REJECTED and the other REJECT |
| HistoryBackfill.RejectionFindsItsClaim | app/db/migrations/versions/idds_867_backfill_hist_ref.py:147-152 | an event of a rejection gets the reference of the one claim of its application and type that was rejected |
| HistoryBackfill.BackfillSound | app/db/migrations/versions/idds_867_backfill_hist_ref.py:128-158 | an event gains a reference exactly when all its nearest such claims have that one |
| HistoryBackfill.BackfillTouchesOnlyTheReference | app/db/migrations/versions/idds_867_backfill_hist_ref.py:131-132 | nothing else changes, and an existing reference never does |
| HistoryBackfill.BackfillIgnoresOrder | app/db/migrations/versions/idds_867_backfill_hist_ref.py:107-111 | the order of claims and decisions makes no difference |
| HistoryBackfill.SecondRunUpdatesNothing | app/db/migrations/versions/idds_867_backfill_hist_ref.py:128-161 | a second run updates nothing exactly when no event was given an empty reference |
| HistoryBackfill.FoundNotEmpty | app/models/claim/index.py:32 | none is, as no claim has one |
| ApprovalEmails.Listed | app/adapters/claim_repository_adapter.py:602-611 | exactly the paid payments on account submitted in the 48 hours before |
| ApprovalEmails.EmailJob.GetApplicationHistory | app/adapters/history_event_repository_adapter.py:120-134 | the application's events as the session sees them, or a failure with any of its effects |
| ApprovalEmails.EmailJob.CreateHistoryEvent | app/adapters/history_event_repository_adapter.py:49-106 | the event is added, or a failure before or after adding it |
| ApprovalEmails.EmailJob.ProcessClaim | app/use_cases/send_auto_approved_poa_claim_emails.py:46-86 | one claim as specified under every fault, failures swallowed |
| ApprovalEmails.EmailJob.Execute | app/use_cases/send_auto_approved_poa_claim_emails.py:39-53 | the loop is the specified pass over the listed claims |
| EmailRuns.ProcessFits | app/use_cases/send_auto_approved_poa_claim_emails.py:55-86 | one claim under every fault keeps at most one approval, and emails within approvals plus late failures |
| EmailRuns.EveryRunEmailsOnce | app/use_cases/send_auto_approved_poa_claim_emails.py:55-86 | over all runs: at most one approval for a claim, only after an email; emails at most that plus the failures after sending; only for automatic approvals |
| EmailCounts.UnrecordedExactly | app/use_cases/send_auto_approved_poa_claim_emails.py:55-86 | which failures of the five calls for a due claim let its email out and leave no record at once |
| EmailCounts.WaitingExactly | app/use_cases/send_auto_approved_poa_claim_emails.py:79-86 | which of them leave the record waiting in the session, for a later claim's commit to save |
| EmailCounts.EveryEmailCounted | app/use_cases/send_auto_approved_poa_claim_emails.py:55-86 | over all runs a claim was emailed exactly as often as an approval of it is recorded, plus once for every run of the job that sent it and left none; such runs are at most the failures after sending |
| EmailRuns.JobsMakeRuns | app/use_cases/send_auto_approved_poa_claim_emails.py:79-86 | with the job in between, the service makes no other runs than without it |
| EmailRuns.EveryApprovalExamined | app/use_cases/send_auto_approved_poa_claim_emails.py:40-44 | with runs at most 48 hours apart every paid payment on account is listed by a run after its submission |
| EmailRuns.FaultlessRunSettles | app/use_cases/send_auto_approved_poa_claim_emails.py:46-86 | a run without failures leaves each automatic approval it lists emailed and recorded exactly once |
| EmailRuns.OneFailureBlocksExactly | app/use_cases/send_auto_approved_poa_claim_emails.py:46-53 | with the faults used up by the claims before it, a due claim is emailed and recorded exactly when none of them left the session unusable |
| EmailRuns.BreaksExactly | app/use_cases/send_auto_approved_poa_claim_emails.py:55-86 | of the calls for one claim, exactly a reached lookup, record or commit that raises so leaves the session unusable |
| EmailRuns.BrokenExactly | app/use_cases/send_auto_approved_poa_claim_emails.py:46-53 | a part of the run leaves the session unusable exactly when one of its claims does |
| EmailRuns.TwoClaims | app/use_cases/send_auto_approved_poa_claim_emails.py:46-53 | with two claims, a failing provider lookup costs only the first its email, a lookup that breaks the session both |
| EmailRuns.LostRecordRepeatsTheEmail | app/use_cases/send_auto_approved_poa_claim_emails.py:73-86 | a run that sends and fails to record, then one that does both: two emails, one approval |

## Left out

- AutomaticRuns.AutomaticNeverOverspends: amounts must be non-negative with the zero-rated part within the gross, because automatic approval does not check the decision amounts, and the limit must not be lowered below what it allowed before.
- EmailRuns.EveryRunEmailsOnce: a run of the job is one step, as its schedule forbids overlap; other parts of the service must record no approval with a claim reference, as is the case.
- EmailCounts.EveryEmailCounted: the same two conditions.
- Forecasts.EveryRunListedExactly: public bodies and the effective date are left out; a listed certificate without a public body fails the whole report.
- HistoryBackfill.BackfillSound: stored values are text or null; other kinds of stored value are left out.
- The two lower-casings of names are parameters: applying Python's twice is applying it once, and neither changes whitespace at the ends.
- DuplicateIndex.EveryRunFindsAll: creations and decisions run one after the other, and a rolled-back creation uses no id.
- CsvStream.StreamCsv: cell formatting and quoting are a parameter; the stream is the list of its chunks, not a lazy generator.
- Two submissions at once, or a submission beside a caseworker's decision on another claim of the application within its checks: the code takes no lock there, so a submission is one step.
- Claims of an application come in the order they were stored; the code asks for no order. The order of report rows in time is not modelled either.
- Column overflow beyond ten digits and the 28-digit precision of decimals; a failing write covers the first.
- The separate tables for decision amounts and reasons are fields of the decision.
- Evidence, cost template, inquest outcomes, counsel and recovery details: one condition says whether they fit the claim.
- Reference generation, banned words and retries: any unused reference of 14 characters.
- Rejection's email after its commit, email contents, provider lookups and PDF letters: only whether a call raises.
- Routers, roles, tokens, rate limits, logging and error reporting.
- The audit-trail, decisions and backlog report rows, and the schema migrations with fixed mappings.
