# EasyArena: the money, the slots and the tickets, in Dafny

EasyArena takes money for field bookings, shop orders, event tickets and subscriptions. This project models the
transactional code of its API and proves what it keeps. `dafny verify dfyconfig.toml` checks everything.

## How it is built

The tables of a component are one immutable state (`BookingModel.State`, `ShopModel.Shop`, `SponsorshipModel.Escrow`,
`Subscriptions.Plans`, `TicketScan.Gate`). Every handler is a function from tables and arguments to tables and reply;
what the database, the clock or the payment provider answers is an argument. Proof modules state what each handler
keeps, and then what every run of handlers keeps. Beside each model stands the code as it runs: a class whose fields are
the tables and whose methods update them row by row, loops and all. Each method's postcondition says that the tables
afterwards are the model's function of the tables before, so everything proved about the functions holds of the
methods; `Arena` and `Sponsorships` also carry the invariants as `Valid()`.

| module | what it is about |
|---|---|
| `Finance`, `Digits`, `Sums` | fees, splits and commissions in whole FCFA; decimal printing; sums over rows |
| `SlotTime`, `SlotGrid` | HH:MM arithmetic, the starts a booking occupies, the slots of a day |
| `Ledger` | ledger rows, running balances, references |
| `BookingModel`, `BookingService` | booking, payment, webhook, reconciliation, withdrawal, cancellation |
| `BookingOutcomes`, `MoneyOutcomes`, `WebhookOutcomes`, `ShopOutcomes`, `SponsorOutcomes` | what each handler leaves and replies, case by case, in terms of the rows it finds |
| `CreatedBookings` | where every booking of a run, and its price, comes from |
| `ExactlyOnce`, `PaidAmounts`, `OwnerBooks`, `RefundCredit` | who is credited, how often, how much, and whether owners stay solvent |
| `StaleRows` | handlers that settle rows another handler has settled since they read them |
| `SlotHolds`, `LiveSlots`, `SlotOverlap`, `ConfirmedSlots` | which bookings can hold a slot, and overlap, over every run |
| `BookingRace`, `RaceRuns` | createBooking with any number of clients and other handlers interleaved |
| `OrphanSweep` | one pass of the reconciliation cron |
| `ShopModel`, `ShopService`, `StockConservation`, `DoubleRestock`, `CheckoutOrders` | orders and stock |
| `Subscriptions`, `TicketScan`, `Totp` | installments and suspensions; ticket scanning; one-time codes |
| `WebhookModel`, `WebhookService` | the webhook that settles all four kinds of sale |
| `SponsorshipModel`, `SponsorshipService`, `SponsorWallets`, `EscrowStays` | commissions in escrow, wallets, withdrawals |

## Where the code falls short of what one would expect

Each of these is proved with a concrete run or input, and with the exact condition under which the code does keep the
property; for sponsorship rates above 100% together the condition is exact to a franc, and the last property the code
never keeps.

- A refund's guard looks at the ledger and not at pending bank transfers. `RefundCanOverdraw` is a run that leaves an
  owner 899 FCFA short; `RefundCoveredExactly` says an approval keeps owners covered if and only if the available
  balance covers the refund.
- A refund is 99% of the price whatever was paid. `DepositRefundExceedsCredit` is a run that refunds 990 FCFA for a
  booking of which the owner was credited 100; `RefundWithinCreditExactly` says a refund stays within the booking's
  own credit if and only if reconciliation confirmed the booking, or the payment was at least the fee-inclusive price
  of the refund, as every full payment is.
- `createBooking` and the webhook compare the starts of a booking's slots with the stored starts of others, and no
  start has to lie on the grid of the field's slots. `OverlapsExactly` says a new booking overlaps a live one in time
  if and only if its start falls into that one or that one's start into it; `HalfHoursCanOverlap` is a run that
  confirms an hour from 10:00 and an hour from 10:30. On the grid, `OverlapsOnGridExactly` says it does if and only if
  it starts at a later slot of that one, so that single slots are safe (`SingleSlotsNeverOverlap`);
  `SecondSlotCanBeSoldTwice` is a run that confirms two slots and again the second of them.
- The webhook takes no schedule lock, and confirms a booking that has expired or was cancelled if no confirmed one is
  in its way. `LateWebhookDoubleBooks` is a run with two live bookings of one start, `LateConfirmationDoubleBooks` an
  interleaving in which a client inserts onto a slot that was confirmed after it was checked. `StepHoldsExactly` and
  `MoveKeeps` say a step keeps live bookings off each other's starts if and only if it is no such late confirmation,
  or one whose booking neither holds an earlier live start nor starts where a later one holds, or where a client has
  checked.
- The lookup of a client's own pending booking asks for no schedule and no expiry. `RepeatCanBeRefused` is a run in
  which a repeated request is refused because of the client's own unexpired booking; `RepeatResumesExactly` says it
  gets that booking back, whatever row is looked up, if and only if no other row is pending for the client and
  request.
- The row lock is on the schedule, not on the client. `TwoTabsBookTwice` is an interleaving in which a client with two
  requests for one time, on two schedules of one field, gets two bookings; `ReplyAloneExactly` says a reply is the one
  `createBooking` would give alone if and only if no booking to resume has turned up since the client looked, and a
  client who inserts would still find its slots free.
- Reconciliation confirms without a conflict check. `ReconciliationCanDoubleBook` is a run with two confirmed bookings
  of one slot; `ConfirmApartExactly` says a confirmation keeps bookings apart if and only if none of its starts is
  confirmed already.
- `confirmOrphanBooking` does not read its row again. `StaleConfirmCreditsTwice` is a run after which the owner has
  2000 FCFA for a booking of 1000; `StaleConfirm` says the owner is credited once if and only if the booking has not
  been confirmed since the row was read, and twice otherwise.
- The webhook reads the payment's status before its transaction. In `DuplicateDeliveryCancels` the second of two
  simultaneous deliveries cancels the booking that the first one confirmed, and the owner keeps the credit;
  `StaleWebhook` says such a delivery confirms the booking if and only if no confirmed booking, itself included, holds
  one of its starts.
- A failure webhook, `cancelOrphanBooking` and `initiatePayment` when the provider throws undo a booking without
  reading it again. In `ProviderFailureUndoes` a client asks for the payment once more, the provider fails, and a paid
  booking is gone with its payment while the owner keeps 1000; `StaleUndo` says the owner keeps a credit for a booking
  so undone if and only if it was confirmed since it was read.
- `getSlotStarts` divides the stored range by the slot count. `EightLongSlots` is a booking of eight four-hour slots
  whose starts it gets wrong; `RecoversBookedStarts` says it gives back the starts `createBooking` checked if and only
  if there is one slot or the slots, as the clock sees them, fit in one day.
- Custom sponsorship rates run from 0 to 100% for each of two sponsors. Up to 100% together they can pay a franc more
  than the net revenue: `HalvesPayTooMuch` pays 6 of 5 FCFA, and `CustomCommissionsBound` says exactly when. Above,
  they can pay up to twice the net revenue: `WholeTwicePaysDouble` pays 50 of 25, and `CommissionsAtAnyRates` says
  they overpay whenever the shares exceed the net revenue by a franc.
- Commissions are recorded under payment and booking ids and unlocked by ticket and event ids, so none is ever paid
  (`NothingUnlocked`); in `CommissionStaysPending` a sponsor's two francs stay PENDING. `UnlockCreditsEach` says a
  commission is unlocked if and only if its own id is named.
- Clean-up and webhook settle orders they read earlier without reading them again. `StaleCleanupRestocksTwice` is a
  run that puts one order's unit back twice, six units on a shelf of five; `StaleCancel` says cancelling such an order
  puts its items back once in all if and only if they were not put back since it was read, and twice otherwise. In
  `StalePaymentLeavesStock` an order becomes PAID whose unit is back on the shelf; `StalePay` says a paid order has
  its units out with it if and only if they were not put back since.
- A ticket's confirmation, and its webhook, read the status first and write without a condition later, so either can
  make a scanned ticket VALID again. `LateConfirmationRescans` and `DuplicateDeliveryRescans` are runs with two
  validations; `ScannedIsFinalExactly` says those two writes, and no other step, take a ticket out of SCANNED.
- The suspension message promises access again on payment, but no handler brings a SUSPENDED subscription back, or
  lets an OVERDUE installment be paid, whatever happens (`SuspensionIsFinal`); in `PaidButSuspended` a client pays
  late and nothing changes.

One weakness no request can reach today: `updateOrderStatus` takes any status, though its one caller passes DELIVERED
(orders.controller.ts:68). A caller that set an order back to PENDING_PAYMENT would have its stock put back twice
(`ReopeningRestocksTwice`); `StepSecureExactly` says a step keeps orders safe from that if and only if it does not do so
to an order that was put back.

## Model

| member | source | states |
|---|---|---|
| `Finance.SplitUndoesFee` | api/src/common/utils/finance.utils.ts:15-39 | splitting a total that was priced with the platform fee gives back the base cost and the same commission, for every amount |
| `Finance.FeeUndoesSplit` | api/src/common/utils/finance.utils.ts:31-39 | pricing the owner's part of a total again gives the total, or one franc more exactly when the total is 10 modulo 21 |
| `Finance.NetRevenueSign` | api/src/common/utils/finance.utils.ts:97-114 | net revenue of a principal is never negative and zero exactly below 10 FCFA |
| `Finance.StandardCommissionsCovered` | api/src/common/utils/finance.utils.ts:86-139 | for every pair of standard grids the two commissions together stay within the net revenue |
| `Finance.CustomCommissionsBound` | api/src/modules/sponsorship/sponsorship.service.ts:159-205 | with custom rates of at most 100% together the two commissions exceed the net revenue by at most one franc, and exactly when both shares are half francs that add up to it; `CommissionsAtAnyRates` has the others |
| `Finance.CommissionsAtAnyRates` | api/src/modules/sponsorship/sponsorship.service.ts:159-205 | at any two rates the commissions are the shares give or take a franc: they overpay whenever the shares exceed the net revenue by a franc, and never pay more than twice the net revenue at rates up to 100% each |
| `Finance.WholeTwicePaysDouble` | api/src/modules/admin/dto/update-sponsorship-settings.dto.ts:4-14 | of a sale of 1000 the net revenue is 25, and 100% for both levels pays 50 |
| `Finance.HalvesPayTooMuch` | api/src/modules/sponsorship/sponsorship.service.ts:159-205 | of a sale of 200 the net revenue is 5, and two rates of 50% pay 3 each |
| `Digits.PaddedRoundTrip` | api/src/modules/transactions/transactions.service.ts:92 | a padded decimal print reads back as its number |
| `SlotTime.PrintThenParse` | api/src/modules/fields/fields.service.ts:400-404 | every minute of the day prints as a clock text that reads back as that minute |
| `SlotTime.ParseThenPrint` | api/src/modules/payments/payments.service.ts:583-591 | every clock text is the print of the minute it reads as |
| `SlotTime.CollectBookedStarts` | api/src/modules/bookings/bookings.service.ts:88-92 | the loop of createBooking collects one start every slot length, modulo a day |
| `SlotTime.GetSlotStarts` | api/src/modules/payments/payments.service.ts:593-604 | the loop of getSlotStarts cuts the stored range, a whole day if it ends where it began, into equal parts |
| `SlotTime.RecoversBookedStarts` | api/src/modules/payments/payments.service.ts:593-604 | getSlotStarts of the stored start, end and count is exactly the list createBooking checked, if and only if there is one slot or the clock lengths fit in a day |
| `SlotTime.EightLongSlots` | api/src/modules/payments/payments.service.ts:593-604 | the starts of eight slots of 240 minutes, from any start, are not recovered: 480 minutes are left of the range, and the second start comes an hour after the first |
| `SlotTime.AmongStartsIsText` | api/src/modules/payments/payments.service.ts:432-441 | the conflict test on minutes used by the tables says what the query on clock texts says |
| `SlotTime.BookedMinutesAreText` | api/src/modules/bookings/bookings.service.ts:118-128 | the starts held by a booking as minutes are the clock texts createBooking checks |
| `SlotGrid.GenerateSlots` | api/src/modules/fields/fields.service.ts:361-398 | exactly (minutes open) div (slot length) slots, slot i from its grid time to the next, available exactly when not past, blocked or booked; the loop ends |
| `SlotGrid.SlotCovers` | api/src/modules/fields/fields.service.ts:375-383 | slot i covers just the minutes whose distance from opening falls in its own stretch, across midnight too |
| `SlotGrid.SlotsDisjoint` | api/src/modules/fields/fields.service.ts:378-396 | two slots of a day start at different times and share no minute of the 24-hour circle, also when the field opens for a whole day |
| `SlotGrid.SlotsLeaveNoGap` | api/src/modules/fields/fields.service.ts:381-396 | a minute lies in some slot exactly when it comes before the end of the last whole slot |
| `Ledger.PostKeepsAudit` | api/src/modules/transactions/transactions.service.ts:29-54 | appending a row keeps all before/after balances true if and only if the caller passed the owner's signed sum |
| `Ledger.ReferencesDistinct` | api/src/modules/transactions/transactions.service.ts:89-93 | no two rows of an audited ledger share a reference, whatever the days |
| `Ledger.ReferenceNumber` | api/src/modules/transactions/transactions.service.ts:89-93 | a reference is TXN, the day and the number of the row in at least four digits |
| `Ledger.TrailLinks` | api/src/modules/transactions/transactions.service.ts:79-87 | of two successive rows of one owner the later one's balance before is the earlier one's balance after |
| `BookingService.Arena.CreateTransaction` | api/src/modules/transactions/transactions.service.ts:29-54 | appends one row with the balance after and the next reference |
| `BookingService.Arena.FindOwnPending` | api/src/modules/bookings/bookings.service.ts:98-107 | answers some pending booking of the client for the same request, and none exactly when there is none |
| `BookingOutcomes.LookupOutcome` | api/src/modules/bookings/bookings.service.ts:98-107 | what is found is of this client, field, date, start and number of slots and awaits payment, and nothing is found exactly when there is no such booking |
| `BookingService.Arena.CreateBooking` | api/src/modules/bookings/bookings.service.ts:70-168 | resumes, refuses or inserts as `BookingOutcomes.CreateOutcome` says of the model, and keeps all invariants |
| `BookingOutcomes.CreateOutcome` | api/src/modules/bookings/bookings.service.ts:76-157 | every case: what is missing, a booking to resume, a slot held by a live booking, and else one new row, of the request, at price and deposit times slots with the 5% fee, awaiting payment for 24 hours |
| `CreatedBookings.EachWasMade` | api/src/modules/bookings/bookings.service.ts:131-155 | after every run each booking was made by one createBooking of it, and still has that call's client, field, schedule, date, start and slots, its price and deposit times slots, and its expiry |
| `CreatedBookings.FullPriceCredited` | api/src/modules/payments/payments.service.ts:462-473 | after every run a booking credited by a full payment or by reconciliation has been credited the schedule's price times its slots |
| `BookingService.Arena.InitiatePayment` | api/src/modules/payments/payments.service.ts:63-195 | every branch of opening, reopening and failing a payment, ending in the model's tables and reply, keeping all invariants |
| `BookingOutcomes.InitiateOutcome` | api/src/modules/payments/payments.service.ts:63-195 | every case: who may pay, in time and within the deposit's bounds, what becomes of the booking on each refusal, and that a new payment has the price asked and an open one keeps id and amount, both with this call's operator and reference and the phone if given |
| `BookingService.Arena.PaymentWebhook` | api/src/modules/payments/payments.service.ts:406-554 | settles the payment, the booking and the owner's credit as the model says, keeping all invariants; the commissions of the same transaction are in `WebhookService.Payments.SettlePayment` |
| `BookingService.Arena.ConfirmOrphanBooking` | api/src/modules/payments/reconciliation.service.ts:91-180 | confirms the booking, sets its payment to SUCCESS and credits the owner |
| `BookingService.Arena.CancelOrphanBooking` | api/src/modules/payments/reconciliation.service.ts:182-204 | fails the payment and expires or cancels the booking; `OrphanSweep.SweepByVerdict` says so of a pass |
| `BookingService.Arena.ReconcilePendingPayments` | api/src/modules/payments/reconciliation.service.ts:36-89 | a pass settles the found bookings one after another, each by what the provider answers for it, its three counters are right, and all invariants are kept |
| `BookingService.Arena.VerifyOrphan` | api/src/modules/payments/reconciliation.service.ts:62-73 | while the provider answers, Paid if and only if it reports some reference of the orphan paid; Unpaid or Lapsed only if it reports none paid and throws on none |
| `OrphanSweep.VerdictDecides` | api/src/modules/payments/reconciliation.service.ts:62-81 | what the verdict decides, all cases: which references were paid, that a cancelling verdict was given for one of them, that a verdict of Threw needs an exception, and that but for a payment the first reference has the word |
| `BookingService.Arena.RequestWithdrawal` | api/src/modules/withdrawals/withdrawals.service.ts:96-263 | debit, cash-out and compensation leave the tables of the model's two steps, and keep all invariants |
| `MoneyOutcomes.RequestOutcome` | api/src/modules/withdrawals/withdrawals.service.ts:116-187 | a withdrawal is refused if and only if amount and 1% fee exceed the balance less the transfers awaiting validation; else a mobile one is debited both at once and a bank one waits |
| `MoneyOutcomes.CashOutOutcome` | api/src/modules/withdrawals/withdrawals.service.ts:199-258 | a cash-out that succeeds writes nothing; one that fails rejects the withdrawal and credits amount and fee back; every other withdrawal stays |
| `MoneyOutcomes.WithdrawnIfSent` | api/src/modules/withdrawals/withdrawals.service.ts:134-258 | request and answer together take amount and fee from the ledger if the provider paid, and nothing if it did not |
| `BookingService.Arena.ValidateWithdrawal` | api/src/modules/withdrawals/withdrawals.service.ts:265-340 | approval debits and rejection frees, as `MoneyOutcomes.ValidationOutcome` says of the model; anything not pending is refused; invariants kept |
| `MoneyOutcomes.ValidationOutcome` | api/src/modules/withdrawals/withdrawals.service.ts:271-312 | of a transfer awaiting validation, approval leaves it PROCESSED, the ledger lower by amount and fee and the free balance as it was; a rejection leaves it REJECTED, the ledger as it was and the free balance higher by both; all other withdrawals and owners stay |
| `BookingService.Arena.RequestCancellation` | api/src/modules/bookings/bookings.service.ts:220-280 | one open request per confirmed booking, for a caller who may see it: its client, the owner of its field or an administrator |
| `BookingOutcomes.CancelRequestOutcome` | api/src/modules/bookings/bookings.service.ts:220-280 | every case: who may ask, for a confirmed booking without an open request; then one request for the owner of the field |
| `BookingService.Arena.ValidateCancellation` | api/src/modules/bookings/bookings.service.ts:306-459 | the refund saga, as `MoneyOutcomes.JudgeOutcome` and `MoneyOutcomes.PayBackOutcome` say of the model's two steps; invariants kept |
| `MoneyOutcomes.JudgeOutcome` | api/src/modules/bookings/bookings.service.ts:306-395 | every case: who may judge, a rejection that only declines, and an approval that needs 99% of the price in the ledger, debits it, cancels the booking and sends the refund if the payment says where to |
| `MoneyOutcomes.PayBackOutcome` | api/src/modules/bookings/bookings.service.ts:397-437 | a refund that is paid out is Sent and writes nothing; one that is not is Returned, and credited back as the last row |
| `MoneyOutcomes.RefundPaidIfSent` | api/src/modules/bookings/bookings.service.ts:358-437 | approval and answer together: the owner is out of the refund if and only if the client got it |
| `MoneyOutcomes.RefundsCost` | api/src/modules/bookings/bookings.service.ts:358-437 | after every run the rows of each request add up to minus its refund, if that was kept, sent or is being sent, and to nothing if it was returned or never due |
| `MoneyOutcomes.AnswerDecides` | api/src/modules/bookings/bookings.service.ts:397-437 | over every run the provider's answer decides a refund for good: Sent at the owner's cost if it paid, Returned at none if not |
| `ExactlyOnce.RunKeeps` | api/src/modules/payments/payments.service.ts:63-195 | over every possible run the booking credits are exactly the due sources, each once, and bookings and payments agree |
| `ExactlyOnce.CreditedExactlyOnce` | api/src/modules/payments/payments.service.ts:410-545 | after every run a SUCCESS payment on an owned field has one BOOKING_CREDIT with its id and any other payment none; a PENDING_PAYMENT booking has no payment or a PENDING one |
| `ExactlyOnce.SettledIsFinal` | api/src/modules/payments/payments.service.ts:410-412 | a payment that has left PENDING is changed by no later step of any handler |
| `ExactlyOnce.OnePaymentPerBooking` | api/src/modules/payments/payments.service.ts:118-195 | initiatePayment never opens a second payment for a booking; asking again keeps the id and the stored amount |
| `StaleRows.StaleConfirm` | api/src/modules/payments/reconciliation.service.ts:91-150 | run on a row read earlier, with or without a payment, confirmOrphanBooking leaves one credit for the booking if and only if it was not confirmed since, and two otherwise |
| `StaleRows.ConfirmRowNow` | api/src/modules/payments/reconciliation.service.ts:91-150 | on a row read just now, it is the confirmation of the runs |
| `StaleRows.StaleConfirmCreditsTwice` | api/src/modules/payments/reconciliation.service.ts:43-91 | a possible run in which reconciliation reads an orphan, the webhook pays it, and reconciliation then brings the balance to 2000 for a booking of 1000 |
| `StaleRows.StaleWebhook` | api/src/modules/payments/payments.service.ts:410-473 | a success for a payment read PENDING earlier confirms the booking and sets the payment to SUCCESS if and only if no confirmed booking holds one of its starts; a booking confirmed since finds itself, is cancelled, and keeps its credit |
| `StaleRows.DuplicateDeliveryCancels` | api/src/modules/payments/payments.service.ts:410-450 | a possible run in which two simultaneous deliveries leave the booking CANCELLED, the payment FAILED and the owner credited |
| `StaleRows.StaleUndo` | api/src/modules/payments/payments.service.ts:127-135 | a failure webhook, a cancelled orphan and a provider that throws, on a payment read earlier, all leave the booking not live and without a successful payment, and the owner credited if and only if it was confirmed since |
| `StaleRows.CancelRowNow` | api/src/modules/payments/reconciliation.service.ts:182-204 | on a row read just now, it is the cancellation of the runs |
| `StaleRows.ProviderFailureUndoes` | api/src/modules/payments/payments.service.ts:120-135 | a possible run after which asking for the payment again loses a paid booking and its payment, and the owner keeps 1000 |
| `PaidAmounts.RunFair` | api/src/modules/payments/payments.service.ts:84-140 | after every run each payment is the fee-inclusive price of the full price or of a deposit within the booking's bounds |
| `PaidAmounts.RunAsked` | api/src/modules/payments/payments.service.ts:84-140 | after every run the owner's part of each payment is what the client chose in the very call that opened it |
| `PaidAmounts.WebhookCreditsChosen` | api/src/modules/payments/payments.service.ts:462-473 | after every run a webhook that credits writes one row, for the amount the client chose in the call that opened the payment; it is the row reconciliation would write if and only if the payment is for the full price, and smaller for every deposit |
| `OwnerBooks.LedgerReconciles` | api/src/modules/withdrawals/withdrawals.service.ts:134-263 | over every run, whatever the cash-outs answer, each owner's balance is booking credits less amount and fee of PROCESSED withdrawals less refunds not credited back, and every row's balances are true |
| `OwnerBooks.NeverOverdrawn` | api/src/modules/withdrawals/withdrawals.service.ts:117-193 | over every run whose refunds were covered, available balance and ledger balance stay non-negative |
| `OwnerBooks.RefundCoveredExactly` | api/src/modules/bookings/bookings.service.ts:345-370 | approving a refund keeps every owner covered if and only if the available balance covers it |
| `OwnerBooks.QuietBankSuffices` | api/src/modules/bookings/bookings.service.ts:345-351 | with no bank transfer pending, the code's own guard is enough |
| `OwnerBooks.RefundCanOverdraw` | api/src/modules/bookings/bookings.service.ts:345-351 | a possible run that leaves an owner's ledger at -899 |
| `RefundCredit.CreditLasts` | api/src/modules/payments/reconciliation.service.ts:91-150 | what a booking is credited, the owner's part of its payment by the webhook or the full price by reconciliation, it has been credited ever after, under the same id; and it is credited in no other way |
| `RefundCredit.RefundWithinCreditExactly` | api/src/modules/bookings/bookings.service.ts:343 | the refund is within what was credited for the booking if and only if reconciliation confirmed it or its payment is at least the fee-inclusive price of the refund, and always after a full payment |
| `RefundCredit.DepositRefundExceedsCredit` | api/src/modules/bookings/bookings.service.ts:343-370 | a possible run that refunds 990 for a booking whose deposit credited 100 |
| `RefundCredit.RefundedOnce` | api/src/modules/bookings/bookings.service.ts:260-459 | over every run a booking is refunded at most once, and a refunded booking stays CANCELLED |
| `SlotHolds.TryBookHolds` | api/src/modules/bookings/bookings.service.ts:97-155 | whatever the table holds, createBooking brings no live booking that holds the start of an earlier live one of its schedule and date, and takes no such pair away |
| `SlotHolds.LiveStartsDistinct` | api/src/modules/bookings/bookings.service.ts:118-128 | two live bookings of one schedule and date, neither of them confirmed late, start at different times |
| `SlotHolds.RepeatResumesExactly` | api/src/modules/bookings/bookings.service.ts:97-115 | a client repeating a request while its booking is unexpired gets that booking back and the table stays as it is, whatever row the lookup answers, if and only if no other row is pending for this client and request |
| `SlotHolds.RepeatResumes` | api/src/modules/bookings/bookings.service.ts:97-115 | where a field's bookings lie on one schedule, a client repeating an unexpired request gets the same booking back and the table stays as it is |
| `SlotHolds.RepeatCanBeRefused` | api/src/modules/bookings/bookings.service.ts:97-128 | a possible run after which a client's repeated request is refused although its own booking is pending and unexpired |
| `SlotHolds.MovedHoldsExactly` | api/src/modules/payments/payments.service.ts:432-448 | a change of status keeps live bookings off each other's starts if and only if it is no late confirmation, or one whose booking fits in |
| `LiveSlots.HandlerMoves` | api/src/modules/payments/payments.service.ts:61-195 | every handler but createBooking changes the status of at most one booking, never to PENDING_PAYMENT, and only the webhook confirms late |
| `LiveSlots.StaleMoves` | api/src/modules/payments/reconciliation.service.ts:91-196 | nor do handlers that act on rows read earlier change more than one booking's status |
| `LiveSlots.StepHoldsExactly` | api/src/modules/payments/payments.service.ts:410-450 | every step of a run keeps the holds of live bookings if and only if it is not a late confirmation of a booking that does not fit |
| `LiveSlots.RunHolds` | api/src/modules/bookings/bookings.service.ts:118-128 | after every run, of the bookings never confirmed late no live one holds the start of an earlier live one |
| `LiveSlots.FittingRunHolds` | api/src/modules/bookings/bookings.service.ts:118-128 | so long as every late confirmation fits, that is so of all bookings |
| `LiveSlots.RepeatAlwaysResumes` | api/src/modules/bookings/bookings.service.ts:97-115 | after every run, where a field's bookings lie on one schedule, a repeated unexpired request gets the same booking back, late confirmations or not |
| `LiveSlots.LateWebhookDoubleBooks` | api/src/modules/payments/payments.service.ts:410-450 | a possible run in which a late webhook leaves two live bookings with one start |
| `SlotOverlap.SharesSlotExactly` | api/src/modules/bookings/bookings.service.ts:118-128 | a booking that is inserted never holds a live one's start, and holds a start that one holds if and only if it is one of its later slots; for slots of equal length, if and only if it starts at one of them |
| `SlotOverlap.OverlapsExactly` | api/src/modules/bookings/bookings.service.ts:118-128 | a booking that is inserted shares a minute with a live one, on the grid or off it and whatever the slot lengths, if and only if its start falls into that one or that one's start into it; they never start together |
| `SlotOverlap.OccupiesIsCovers` | api/src/modules/bookings/bookings.service.ts:132 | for bookings of at most a day the minutes are those between the stored start and end |
| `SlotOverlap.OverlapsOnGridExactly` | api/src/modules/fields/fields.service.ts:375-383 | where both lie on the grid of the field's slots, if and only if the new one starts at a later slot of the live one |
| `SlotOverlap.SingleSlotsNeverOverlap` | api/src/modules/bookings/bookings.service.ts:118-128 | on the grid a booking that is inserted shares no minute with a live single-slot booking |
| `SlotOverlap.SecondSlotCanBeSoldTwice` | api/src/modules/payments/payments.service.ts:432-450 | a possible run, without reconciliation, after which two confirmed bookings share a slot and its minutes |
| `SlotOverlap.HalfHoursCanOverlap` | api/src/modules/bookings/dto/create-booking.dto.ts:10-12 | a possible run, without reconciliation, after which two confirmed single slots, half an hour apart, share minutes and no start |
| `BookingRace.MoveKeeps` | api/src/modules/bookings/bookings.service.ts:82-157 | every move, of a client or of another handler, on any schedule, keeps the holds of the table and what was checked under the lock true if and only if it is not a late confirmation of a booking that does not fit |
| `BookingRace.RaceHolds` | api/src/modules/bookings/bookings.service.ts:70-168 | at every moment of every interleaving of clients, schedules and other handlers: of the bookings never confirmed late no live one holds the start of an earlier live one, what clients checked is free of them, and clients past the lock hold it |
| `BookingRace.FittingRaceHolds` | api/src/modules/bookings/bookings.service.ts:70-168 | so long as every late confirmation fits, that is so of all bookings |
| `BookingRace.ReplyAloneExactly` | api/src/modules/bookings/bookings.service.ts:97-168 | in every state a reply, with the change to the table, is that of createBooking run alone at that moment if and only if no booking to resume has turned up since the client looked, and a client who inserts would still find its slots free |
| `BookingRace.RepliesAsIfAlone` | api/src/modules/bookings/bookings.service.ts:82-168 | where each field has one schedule, over every run a reply and its change to the table are those of createBooking run alone at that moment, except exactly that a client inserts although a slot was taken after it was checked |
| `BookingRace.FittingRepliesAlone` | api/src/modules/bookings/bookings.service.ts:82-168 | there, so long as every late confirmation fits, every reply is that of createBooking run alone |
| `RaceRuns.TwoTabsBookTwice` | api/src/modules/bookings/bookings.service.ts:82-157 | an interleaving of one client's two requests on two schedules of a field: both book, and the later reply is not the one createBooking gives alone |
| `RaceRuns.LateConfirmationDoubleBooks` | api/src/modules/payments/payments.service.ts:410-450 | an interleaving in which a webhook confirms an expired booking on a slot that a client has checked: both are live, and the reply is not the one createBooking gives alone |
| `ConfirmedSlots.ConfirmApartExactly` | api/src/modules/payments/payments.service.ts:432-450 | a confirmation keeps confirmed bookings apart if and only if none of its starts is confirmed already |
| `ConfirmedSlots.ConfirmedStayApart` | api/src/modules/payments/payments.service.ts:98-111 | over every run whose reconciliations met no conflict, the start of the booking confirmed first is not among getSlotStarts of the later one |
| `ConfirmedSlots.ConfirmedOverlapExactly` | api/src/modules/payments/payments.service.ts:432-450 | after every such run two confirmed bookings of one field and date on the field's grid overlap if and only if the one confirmed later starts at a later slot of the other |
| `ConfirmedSlots.ConfirmedDisjoint` | api/src/modules/payments/payments.service.ts:432-450 | confirmed single-slot bookings on the generated grid share no minute |
| `ConfirmedSlots.ReconciliationCanDoubleBook` | api/src/modules/payments/reconciliation.service.ts:91-130 | a possible run after which two bookings of one slot are confirmed |
| `OrphanSweep.SweepByVerdict` | api/src/modules/payments/reconciliation.service.ts:60-85 | a pass gives each orphan the status of its own verdict and its payment SUCCESS, FAILED or none new by it, whatever the order of the rows, touches nothing else, and keeps the invariants |
| `MoneyOutcomes.ReconcileOutcome` | api/src/modules/payments/reconciliation.service.ts:43-204 | of a booking pending since the threshold: Paid confirms it, sets its payment to SUCCESS and credits the full price under the payment's id or its own; Unpaid cancels, Lapsed expires and both fail the payment; any other booking or verdict changes nothing |
| `OrphanSweep.FreedForGood` | api/src/modules/payments/reconciliation.service.ts:182-204 | a booking that a pass cancels or expires, and its failed payment, are changed by no later webhooks, of any status and for any payments |
| `OrphanSweep.CountsRows` | api/src/modules/payments/reconciliation.service.ts:76-85 | the two counters of a pass count the rows reported paid and those reported unpaid or lapsed |
| `ShopService.Store.Checkout` | api/src/modules/orders/orders.service.ts:28-128 | grouping, stock and orders come out as the model says, and any refusal leaves stock and orders as they were |
| `ShopOutcomes.CheckoutOutcome` | api/src/modules/orders/orders.service.ts:36-127 | every case: unknown or repeated products, too little left, a provider that refuses a positive amount, and else just the units wanted taken and fresh orders added |
| `ShopOutcomes.StockedExactly` | api/src/modules/orders/orders.service.ts:57-64 | a cart finds stock if and only if no line, with those before it, asks for more of a product than there is; exactly the stock left is enough |
| `ShopService.Store.TakeLines` | api/src/modules/orders/orders.service.ts:57-84 | the cart loop succeeds exactly when every line finds stock in its turn, and leaves the reduced stock, the groups and the total |
| `ShopService.AddToGroup` | api/src/modules/orders/orders.service.ts:65-84 | the vendor map holds each vendor's lines so far, in order, with their total |
| `ShopService.CreateOrders` | api/src/modules/orders/orders.service.ts:86-110 | one order per group, in the order the groups were made |
| `ShopService.Store.CancelAndRestoreStock` | api/src/modules/orders/order-reconciliation.service.ts:61-99 | cancels the order, puts every item back, and counts the units |
| `ShopService.Store.OrderWebhook` | api/src/modules/payments/payments.service.ts:288-333 | settles a group only if all its orders are pending, paying or cancelling each and putting stock back |
| `ShopOutcomes.GroupOutcome` | api/src/modules/payments/payments.service.ts:288-327 | success pays every order of a pending group and leaves the stock; failure cancels every one and adds their units to the stock |
| `ShopService.Store.CleanupAbandonedOrders` | api/src/modules/orders/order-reconciliation.service.ts:22-59 | cancels just the abandoned orders, and its three counters are right |
| `ShopService.CountsOrders` | api/src/modules/orders/order-reconciliation.service.ts:42-58 | its counters are the number of orders pending since the threshold and the units of their items |
| `ShopOutcomes.CleanupOutcome` | api/src/modules/orders/order-reconciliation.service.ts:22-99 | the orders pending since the threshold are cancelled and their units added to the stock; all others stay |
| `ShopService.Store.UpdateOrderStatus` | api/src/modules/orders/orders.service.ts:146-156 | sets the status of the vendor's own order, and refuses any other |
| `ShopOutcomes.StatusOutcome` | api/src/modules/orders/orders.service.ts:146-156 | a vendor sets the status of an order of their own and of no other |
| `StockConservation.GroupsPartition` | api/src/modules/orders/orders.service.ts:48-84 | whatever is summed over the lines of a cart comes out the same vendor by vendor |
| `StockConservation.StepConserves` | api/src/modules/payments/payments.service.ts:313-326 | every step keeps stock plus units out with orders, product by product |
| `StockConservation.StepOnce` | api/src/modules/orders/order-reconciliation.service.ts:61-99 | every step puts items back only on taking the order from PENDING_PAYMENT to CANCELLED, and leaves no order pending that was put back unless it reopens one |
| `StockConservation.ShopInvariant` | api/src/modules/orders/orders.service.ts:36-127 | over every run without reopening: stock never negative, stock plus units of orders not put back is the initial stock, no order put back twice |
| `DoubleRestock.SecureExactly` | api/src/modules/orders/order-reconciliation.service.ts:61-99 | no order is put back twice however things go on without reopening, if and only if each was put back at most once so far and none that is pending was |
| `DoubleRestock.StepSecureExactly` | api/src/modules/orders/orders.service.ts:146-156 | a step keeps the shop so if and only if it does not reopen an order |
| `DoubleRestock.ReopenedIsPutBackTwice` | api/src/modules/orders/order-reconciliation.service.ts:27-99 | any reopened order is put back a second time by the next clean-up that finds it old enough |
| `DoubleRestock.ReopeningRestocksTwice` | api/src/modules/orders/orders.service.ts:146-156 | a run with a reopening that ends with six units of a product of which there were five |
| `DoubleRestock.StaleCancel` | api/src/modules/orders/order-reconciliation.service.ts:27-81 | an order read while pending and cancelled after any further run has been put back once in all if and only if it was not put back since it was read, else twice; if it was paid since it is cancelled too |
| `DoubleRestock.StaleCleanupRestocksTwice` | api/src/modules/orders/order-reconciliation.service.ts:27-81 | a run in which a failure webhook comes between reading and cancelling: six units where there were five |
| `DoubleRestock.StalePay` | api/src/modules/payments/payments.service.ts:288-304 | an order read while pending and marked PAID after any further run has its units out with it if and only if they were not put back since it was read |
| `DoubleRestock.StalePaymentLeavesStock` | api/src/modules/payments/payments.service.ts:288-304 | a run that ends with an order PAID and its unit back on the shelf |
| `CheckoutOrders.DistinctByCount` | api/src/modules/orders/orders.service.ts:42-47 | comparing the number of products found with the number of lines detects exactly unknown and repeated products |
| `CheckoutOrders.RepeatedProductRefused` | api/src/modules/orders/orders.service.ts:42-47 | a cart is refused by the product check if and only if it repeats or misses a product, and then nothing changes |
| `CheckoutOrders.ItemsInCartOrder` | api/src/modules/orders/orders.service.ts:65-84 | a vendor's items are all and only that vendor's lines, in cart order |
| `CheckoutOrders.CheckoutPartitions` | api/src/modules/orders/orders.service.ts:48-110 | one order per vendor, and the order totals add up to the one amount sent to the provider |
| `Subscriptions.SubscriptionReconciliation.Phase1Relance` | api/src/modules/subscriptions/subscription-reconciliation.service.ts:41-100 | reminds of the due installments of active subscriptions whose client can be reached, and changes no row |
| `Subscriptions.SubscriptionReconciliation.Phase2Suspension` | api/src/modules/subscriptions/subscription-reconciliation.service.ts:102-154 | the loop marks the first row of each active subscription and suspends it, and counts the suspensions |
| `Subscriptions.NoDefaultLeft` | api/src/modules/subscriptions/subscription-reconciliation.service.ts:102-154 | after a pass no ACTIVE subscription has a PENDING installment due at or before the cutoff |
| `Subscriptions.SuspendsDefaulters` | api/src/modules/subscriptions/subscription-reconciliation.service.ts:123-135 | the pass suspends exactly the active subscriptions with an installment in default |
| `Subscriptions.OneOverdueEach` | api/src/modules/subscriptions/subscription-reconciliation.service.ts:121-135 | exactly one installment of each suspended subscription becomes OVERDUE, and no other installment changes |
| `Subscriptions.SecondPassIdle` | api/src/modules/subscriptions/subscription-reconciliation.service.ts:102-154 | an immediate second pass changes nothing |
| `Subscriptions.WindowsPartition` | api/src/modules/subscriptions/subscription-reconciliation.service.ts:44-56 | the reminder and suspension windows are disjoint and together hold every due PENDING installment |
| `Subscriptions.ThreeDays` | api/src/modules/subscriptions/subscription-reconciliation.service.ts:44-122 | a pass suspends the active subscriptions with an installment pending for 259200000 ms or more, and the reminders are for those due for less |
| `Subscriptions.RemindedOrSuspended` | api/src/modules/subscriptions/subscription-reconciliation.service.ts:29-39 | the daily run reminds of every due installment of a reachable active subscription or suspends the subscription |
| `Subscriptions.InstallmentOutcome` | api/src/modules/payments/payments.service.ts:341-355 | success makes an open installment PAID and starts its pending subscription, anything else makes it FAILED, and a settled one stays |
| `Subscriptions.SuspensionIsFinal` | api/src/modules/payments/payments.service.ts:335-358 | over every run of subscribing, webhooks and passes, SUSPENDED subscriptions and PAID, FAILED or OVERDUE installments never change |
| `Subscriptions.PaidButSuspended` | api/src/modules/payments/payments.service.ts:335-358 | a run in which a client pays an overdue installment and stays suspended |
| `TicketScan.RunCounted` | api/src/modules/tickets/tickets.service.ts:203-286 | in every interleaving of scanners, split webhooks and split confirmations the validations are as many as the ticket left SCANNED, plus one while it is SCANNED |
| `TicketScan.AtMostOneValidation` | api/src/modules/tickets/tickets.service.ts:268-286 | with atomic confirmations and webhooks at most one validation succeeds, however many scanners, and then the ticket stays SCANNED |
| `TicketScan.ScannedIsFinalExactly` | api/src/modules/payments/payments.service.ts:372-401 | a step leaves SCANNED if and only if it is the write of a webhook or confirmation that had read the ticket unpaid |
| `TicketScan.BackToBack` | api/src/modules/payments/payments.service.ts:372-401 | a webhook or confirmation whose read and write have nothing between them does what the one-step event does |
| `TicketScan.ValidatedAgainOnlyReopened` | api/src/modules/tickets/tickets.service.ts:268-286 | a second validation needs a reopening, and a reopened ticket admits the next good token |
| `TicketScan.LateConfirmationRescans` | api/src/modules/tickets/tickets.service.ts:129-165 | the run of one confirmation, one webhook and two scanners ends with both scanners accepted |
| `TicketScan.DuplicateDeliveryRescans` | api/src/modules/payments/payments.service.ts:372-389 | the run of two simultaneous deliveries and two scanners ends with both scanners accepted |
| `TicketScan.TicketDesk.UpdateIfValid` | api/src/modules/tickets/tickets.service.ts:272-281 | the conditional update affects one row exactly when the ticket is VALID |
| `TicketScan.TicketDesk.ValidateTicket` | api/src/modules/tickets/tickets.service.ts:197-309 | success means the scanner is allowed, the ticket has a secret and the token is good, and turns just this ticket to SCANNED; else nothing changes; and it ends as the three steps of one scanner |
| `TicketScan.TicketDesk.ConfirmTicketPayment` | api/src/modules/tickets/tickets.service.ts:129-181 | alone, it is the atomic confirmation, for the ticket's own client only |
| `Totp.BitString` | api/src/modules/tickets/totp.service.ts:61-67 | five bits per symbol whose value is the base-32 number of RFC 4648, other characters skipped |
| `Totp.AlphabetIsTable` | api/src/modules/tickets/totp.service.ts:61-66 | looking a character up in the alphabet gives its value in table 3 of RFC 4648 |
| `Totp.Pack` | api/src/modules/tickets/totp.service.ts:69-72 | the buffer holds the big-endian bytes of the bits, the incomplete last byte cut off |
| `Totp.CounterBytes` | api/src/modules/tickets/totp.service.ts:74-79 | the loop from the last byte down fills in the counter's eight big-endian bytes |
| `Totp.KeyAndCounterValues` | api/src/modules/tickets/totp.service.ts:61-79 | the key as a base-256 number is the base-32 number divided by 2^(5n mod 8), the counter bytes are the counter modulo 2^64 |
| `Totp.Truncate` | api/src/modules/tickets/totp.service.ts:85-89 | masks, shifts and ors give the truncated code; all five reads of the digest are in bounds |
| `Totp.TruncatedIsLow31Bits` | api/src/modules/tickets/totp.service.ts:85-89 | that code is the last 31 bits of the four bytes, as section 5.3 of RFC 4226 says |
| `Totp.SixDigits` | api/src/modules/tickets/totp.service.ts:91-92 | a token is always six digits and reads as the code modulo 10^6 |
| `Totp.ComputeTotp` | api/src/modules/tickets/totp.service.ts:60-93 | buffers, hash and truncation together give the token of secret and counter |
| `Totp.GenerateToken` | api/src/modules/tickets/totp.service.ts:34-38 | the token of the given time, or of now when it is missing or zero |
| `Totp.VerifyToken` | api/src/modules/tickets/totp.service.ts:43-55 | accepts exactly the tokens of the three counters around now |
| `Totp.AcceptedNearby` | api/src/modules/tickets/totp.service.ts:43-55 | a token made at t is accepted at every time within 30 seconds of t, as section 5.2 of RFC 6238 asks |
| `Totp.AcceptedFarOnlyByCollision` | api/src/modules/tickets/totp.service.ts:43-55 | at 60 seconds or more it is accepted only if another counter has the same digits |
| `WebhookService.Payments.FindPayment` | api/src/modules/payments/payments.service.ts:363-369 | answers a payment with the key as id, external reference or booking id, and none exactly when there is none |
| `WebhookOutcomes.KeyFinds` | api/src/modules/payments/payments.service.ts:361-369 | a key carried by one payment alone, as its id, external reference or booking id, finds that payment, and a key no payment carries finds none |
| `WebhookService.Payments.HandleWebhook` | api/src/modules/payments/payments.service.ts:276-554 | the four-way dispatch over all tables, commissions of a confirmed booking included, a bad signature changing nothing |
| `WebhookOutcomes.SuccessSpells` | api/src/modules/payments/payments.service.ts:359 | a payment's or ticket's status is a success if and only if it spells success, successful, paid or completed, letter by letter and in any case |
| `WebhookOutcomes.Examples` | api/src/modules/payments/payments.service.ts:359 | success, SUCCESS, Paid, successful and completed are successes; failed, pending and the empty text are none |
| `WebhookOutcomes.PaymentOutcome` | api/src/modules/payments/payments.service.ts:359-545 | a signed delivery on an open payment: a status that spells one of the words leaves booking CONFIRMED, payment SUCCESS and one BOOKING_CREDIT of the owner's part, unless a confirmed booking is in its way; then, and on any other status, it leaves CANCELLED, FAILED and the same rows |
| `WebhookOutcomes.CommissionOutcome` | api/src/modules/payments/payments.service.ts:489-498 | a confirmed booking's commissions are those of a sale of its price under its payment's id |
| `WebhookOutcomes.BuyerOutcome` | api/src/modules/payments/payments.service.ts:488-494 | the first level is looked up for the user of the booking's client and the second for the first one's sponsor, unexpired both, and none for a client without a user |
| `WebhookOutcomes.TicketOutcome` | api/src/modules/payments/payments.service.ts:372-402 | a ticket awaiting payment becomes VALID if the status spells one of the words and FAILED if not; any other stays |
| `WebhookOutcomes.OrdersOutcome` | api/src/modules/payments/payments.service.ts:287-332 | an order group is paid if and only if the status is exactly success, and else cancelled with its stock back, unless one of its orders is settled |
| `WebhookOutcomes.InstallmentsOutcome` | api/src/modules/payments/payments.service.ts:335-357 | an open installment is PAID if and only if the status is exactly success, starting a pending subscription, and else FAILED |
| `WebhookOutcomes.UnsignedOutcome` | api/src/modules/payments/payments.service.ts:276-286 | a delivery that is not signed changes nothing |
| `WebhookService.Payments.SettlePayment` | api/src/modules/payments/payments.service.ts:406-554 | settles booking, payment, credit and commissions as the model says; commissions are looked up only for a booking it confirms |
| `WebhookModel.TwiceIsOnce` | api/src/modules/payments/payments.service.ts:287-412 | for all tables and payloads with unique keys, delivering a webhook twice is delivering it once, commissions included |
| `WebhookModel.FirstVerdictWins` | api/src/modules/payments/payments.service.ts:287-412 | a delivery with any status changes no settled order group, installment, ticket or payment, restores no stock for a settled group and owes no commission for a settled payment |
| `WebhookModel.VerdictsAreFinal` | api/src/modules/payments/payments.service.ts:287-412 | nor does any run of deliveries |
| `SponsorshipService.Sponsorships.DistributeCommissions` | api/src/modules/sponsorship/sponsorship.service.ts:127-232 | records the commissions of the two lookups as the model says; wallets and ledger stay true |
| `SponsorOutcomes.DistributeOutcome` | api/src/modules/sponsorship/sponsorship.service.ts:127-232 | a sale with positive net revenue records the first level under the buyer's link and the second under the link of the sponsor's sponsor, each at the sponsor's own or the standard rate, rounded, if positive; without a first level none |
| `SponsorOutcomes.LookupOutcome` | api/src/modules/sponsorship/sponsorship.service.ts:137-149 | what is found is a link of the referee that has yet to expire, and nothing is found exactly when there is none |
| `SponsorshipService.Sponsorships.UnlockCommissions` | api/src/modules/sponsorship/sponsorship.service.ts:261-328 | unlocks the pending commissions of the source one by one and counts them; wallets and ledger stay true |
| `SponsorOutcomes.UnlockOutcome` | api/src/modules/sponsorship/sponsorship.service.ts:281-312 | an unlocked commission is AVAILABLE and its amount credited once: one BOOKING_CREDIT row for a sponsor with an owner profile, the wallet for any other |
| `SponsorshipService.Sponsorships.CancelCommissions` | api/src/modules/sponsorship/sponsorship.service.ts:334-357 | cancels just the pending commissions of the source and counts them |
| `SponsorOutcomes.CancelOutcome` | api/src/modules/sponsorship/sponsorship.service.ts:334-357 | pending commissions that carry the id in any column are CANCELLED, all others stay |
| `SponsorshipService.Sponsorships.DebitIfCovered` | api/src/modules/sponsorship/sponsorship.service.ts:394-404 | the conditional update debits one row exactly when the wallet covers the amount |
| `SponsorshipService.Sponsorships.RequestWithdrawal` | api/src/modules/sponsorship/sponsorship.service.ts:380-436 | refuses in the order of the checks, else debits and records; no wallet goes negative |
| `SponsorOutcomes.RequestOutcome` | api/src/modules/sponsorship/sponsorship.service.ts:380-436 | every refusal, and else a debited wallet and a pending request |
| `SponsorshipService.Sponsorships.ValidateWithdrawal` | api/src/modules/sponsorship/sponsorship.service.ts:451-511 | processes or rejects a pending request once, and a rejection gives the amount back |
| `SponsorOutcomes.JudgeOutcome` | api/src/modules/sponsorship/sponsorship.service.ts:451-511 | approval only marks a pending request PROCESSED; a rejection marks it REJECTED and gives the amount back; all other requests and wallets stay |
| `SponsorWallets.WalletConserved` | api/src/modules/sponsorship/sponsorship.service.ts:261-511 | over every run the wallet of a sponsor without owner profile is what became AVAILABLE less PENDING and PROCESSED withdrawals, and never negative |
| `SponsorWallets.CreditsConserved` | api/src/modules/sponsorship/sponsorship.service.ts:290-312 | over every run, owner profile or not, wallets and ledgers hold exactly the commissions credited to each, and AVAILABLE ones are credited to one of the two |
| `SponsorWallets.UnlockCreditsEach` | api/src/modules/sponsorship/sponsorship.service.ts:281-312 | unlocking credits each pending commission of the source to ledger or wallet by whether the sponsor has a profile, and leaves the others alone |
| `SponsorWallets.RepeatsChangeNothing` | api/src/modules/sponsorship/sponsorship.service.ts:261-357 | after unlocking or cancelling a source, unlocking or cancelling it again changes nothing |
| `SponsorWallets.SettledCommissionsStay` | api/src/modules/sponsorship/sponsorship.service.ts:264-357 | a commission leaves PENDING once; no later step changes it |
| `SponsorWallets.SalePaysOut` | api/src/modules/sponsorship/sponsorship.service.ts:151-205 | a sale owes its sponsors, two, one or none, at most the net revenue at standard rates, at most one franc more at any rates within 100% together, at most twice the net revenue at rates up to 100% each, and more than the net revenue whenever the shares exceed it by a franc |
| `EscrowStays.NothingUnlocked` | api/src/modules/tickets/tickets.service.ts:297-299 | over every run in which sales are recorded under other ids than commissions are unlocked by, no commission becomes AVAILABLE, every wallet is empty and no ledger is credited |
| `EscrowStays.CommissionStaysPending` | api/src/modules/payments/payments.service.ts:489-494 | a run in which a paid booking's commission stays PENDING after a ticket is scanned |

## Left out

Assumptions, stated once: amounts are whole FCFA and `Math.round` is exact (IEEE effects at ties are not modelled);
new ids are fresh and foreign keys hold; each handler runs as one step except where it is split (`BookingRace`,
`TicketScan`, `StaleRows`, `DoubleRestock.StaleCancel`, withdrawals and refunds); a query answers its rows in some
fixed order.

- Roles, guards, OTP codes, HTTP, WebSocket, SMS, storage and IoT calls inside the handlers: their outcome is an argument or they are dropped.
- The payment provider: an arbitrary answer per call. HMAC-SHA1 and the webhook signature are an arbitrary function and an arbitrary verdict.
- Commission rows in the owners' ledger inside the booking runs: `OwnerBooks` and `ExactlyOnce` run without sponsorship, `SponsorWallets` without bookings. A commission unlocked by payment id writes a BOOKING_CREDIT row with that id.
- A second cancellation path, cancellations.service.ts, with its CANCELLATION_PENDING state and fractional amounts; `_devAutoConfirm`; the platform treasury; administration statistics. In a race its return to CONFIRMED counts as a late confirmation.
- Database errors in the middle of a handler, and a crash between a commit and its compensation.
- The calendar: whether a booked time is over, expiry dates of sponsorships and the day of a reference are arguments.
- Vendors' edits of products (an absolute overwrite of the stock), and an order's delivery messages.
- Ticket purchase, subscription plans and their amounts: single inserts and sums with no state to keep.
- Characters beyond ASCII whose upper case is a base-32 letter; secrets are made of the alphabet only.
- `SlotTime.GetSlotStarts`: a cut that is no whole minute prints digits after a decimal point; the model keeps the point and drops the digits, since no stored time equals such a text.
- `BookingService.Arena.PaymentWebhook`: the commissions of the same transaction are not in its contract; `WebhookService.Payments.SettlePayment` has both.
- `BookingService.Arena.ConfirmOrphanBooking`: the commissions that reconciliation distributes in the same transaction are not recorded, since its tables hold no escrow; `SponsorshipService.Sponsorships.DistributeCommissions` says what they are.
- `BookingService.Arena.ReconcilePendingPayments`: the provider answers each row by one function of the reference asked, nothing runs between two rows (`StaleRows.StaleConfirm` says what a row settled in between gets), and no row's transaction throws.
- `OrphanSweep.SweepByVerdict`: the same; nothing runs between two rows.
- `Subscriptions.SubscriptionReconciliation.Phase2Suspension`: no row's update throws.
- `WebhookModel.TwiceIsOnce`: needs at most one payment to match the key, which the schema does not enforce for external references, and takes the two deliveries one after the other; `StaleRows.StaleWebhook` takes them at once.
- `ConfirmedSlots.ConfirmedStayApart`: only for runs whose reconciliations met no conflict, since without that it is false.
- `OwnerBooks.NeverOverdrawn`: only for runs whose refunds were covered by the available balance, since without that it is false.
- `StockConservation.ShopInvariant`: only for runs without reopening whose handlers read no row early, since without that no order need stay at one restoring; `DoubleRestock.StepSecureExactly` and `DoubleRestock.StaleCancel` are exact.
- `SlotHolds.RepeatResumes`: needs each field's bookings to lie on one schedule; `SlotHolds.RepeatResumesExactly` does not.
- `SlotHolds.LiveStartsDistinct`: not of bookings confirmed late, since of those it is false (`LiveSlots.LateWebhookDoubleBooks`).
- `LiveSlots.FittingRunHolds`: only for runs whose late confirmations fit; `LiveSlots.RunHolds` is for all runs, and leaves out the bookings confirmed late.
- `BookingRace.FittingRaceHolds`: the same for interleavings; `BookingRace.RaceHolds` and `BookingRace.MoveKeeps` need no such hypothesis.
- `BookingRace.FittingRepliesAlone`: the same, and one schedule for each field; `BookingRace.ReplyAloneExactly` needs neither.
- `BookingRace.RepliesAsIfAlone`: needs each field to have one schedule, since with two it is false (`RaceRuns.TwoTabsBookTwice`); `BookingRace.ReplyAloneExactly` does not.
- `TicketScan.AtMostOneValidation`: needs webhooks and confirmations to run in one step, since without that it is false.
