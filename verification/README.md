# The billing money core, modelled in Dafny

What a subscriber paid, owes and is owed stands in a handful of PostgreSQL tables that many writers change:
payments, cancellations that move what was paid, refunds, payouts, disputes that take a payment back and may
give it back again. This project models those writers, and around them the numbering and the collection of
invoices, promotion-code slots, the versions of a plan on sale, and the payment method in use, and proves what
holds after every run of them.

Run `dafny verify dfyconfig.toml` to check all of it.

## How it is laid out

- `Sums`: signed sums over rows, ordering, and gathering amounts under an id.
- `PaymentRules`: how an amount divides, as folds, with the loops that compute them.
- `InvoiceChain`: invoice, cancellation invoice and replacement, the walk to the invoice that stands, and what an
  invoice owes.
- `OpenSums`: owed and open amounts as the database sums them, and as they are added up row by row.
- `Books`, `Soundness`: the ledger's tables as one value, what is read of them, and the invariant.
- `Brought`, `Withdrawals`, `LiftedCovers`, `WholeWithdrawals`: what a reversal takes, and the covers it lifts.
- `Reinstatements`, `GiveBacks`: what the gateway gives back of it.
- `ReversalFrame`, `ReversalReports`, `ReportTotals`: how far a reversal reaches, one report, and any sequence of
  reports.
- `ChainReads`: what a reversal reads lies in its chain.
- `QuietWrites`, `PaymentRecords`, `Corrections`, `Refunds`: the other writers.
- `WithdrawalAnswers`, `GiveBackAnswers`, `CorrectionAnswers`, `RefundAnswers`, `WriterAnswers`: what each writer does
  and when it refuses, said of the tables alone, without the functions it is computed by.
- `LedgerRuns`: the main results, over every run of every writer; `LiftingRun`, one run in which a cover is lifted.
- `Ledger`: the same writers as a class that changes tables row by row, each method proved to do what the step on the
  whole books does.
- `Locks`: the order in which they lock rows, and why no transactions wait on one another in a circle.
- `LockedWrites`, `RefundUnderAnother`: that every row a step writes is one it holds, and the one report of which it is
  not so.
- `Collection`, `CollectionTable`, `CollectionAnswers`: attempts to collect an invoice.
- `Numbering`: invoice numbers under interleaved transactions.
- `PromoSlots`, `PromoTables`, `PromoAnswers`, `VersionsOnSale`, `Pages`, `PaymentMethods`: one component each.

## How it is read

- Amounts are whole cents, moments whole milliseconds in UTC. What the gateway reports of a reversal may be any
  integer; a payment, a refund and a payout are at least nothing.
- A row's id is its place in its table. Where an ordering falls back on the random id, `rank` stands for where that id
  falls, and every result holds for any `rank`. The ids of invoices, subscribers and codes are numbers in the order the
  source compares them. A gateway account and a reference at it are one reference. A cancellation is known by the
  invoice it cancels, which is unique.
- A method that holds a chain's turn is one step; `Collection.ReadStays` shows that what it read stays true while
  others write outside the turn, and `Numbering` interleaves single statements. A thrown error is a step that changes
  nothing, as its transaction is rolled back.
- What is settled on an invoice may change in any way between the steps of `Collection`.
- A hold converted from a promotion code is any that the transaction was handed, as the statement leaves open.

## Where the code differs from what is said of it

- The comment on `openOfCredit` (packages/core/src/subscriber-payment-rules.ts:78-79) says that an entry taking a credit
  below nothing is not written. A withdrawal that lifts covers writes one, and only the give-backs that follow bring the
  credit back up: `WholeWithdrawals.BelowNothingMeanwhile` says exactly when and by how much, and
  `LiftingRun.CoverComesToBeLifted` is a run from empty tables that gets there. After every commit it holds
  (`LedgerRuns.CreditsSolvent`).
- The comment on `takeTurns` (packages/adapter-drizzle/src/drizzle-subscriber-reversal.ts:144-149) says that its locks are
  taken in one order. The row locked next is found by the reference a report bears (166-196), before it is compared with
  the payment the report names: where the reference is a reversal's of another chain, the row is locked outside the turn
  that guards it. `Locks.OrderlyUnlessOther` says that this is the only report out of order, and
  `Locks.ReferenceOfAnotherChain` is a run that ends in one. It is refused, asks for no further lock, and so closes no
  circle (`Locks.NoCircle`).
- The comment in `recordRefund`
  (packages/adapter-drizzle/src/drizzle-subscriber-payment.repository.ts:313-314) says that the credits a refund divides
  are held before anything of them is read. They are those of the subscriber of the payment the report names; a refund
  seen before is found by its own reference alone (322-334), and what it took is given back to the credits of the
  subscriber it was recorded for. `RefundUnderAnother.GivenBackOnHeld` says exactly when these are held, and
  `RefundUnderAnother.GivenBackUnheld` is a run in which they are not.
- The comment in `listCollectableAgain`
  (packages/adapter-drizzle/src/drizzle-invoice-collection.repository.ts:410-412) takes a last attempt that failed or was
  withdrawn to mean that no attempt of the invoice succeeded. After a late success it does not:
  `Collection.SuccessBehindTheLast` is such a run, and `Collection.LastTellsUnless` names exactly the step that ends it.
- `previousUtcDay` keeps the time of day (packages/core/src/active-plan-version-query.ts:51-55), so a version published
  within a day leaves the plan without one from the start of that day until it begins, and at no other moment:
  `VersionsOnSale.DarkUntilItBegins`. Both publishing services refuse such a start
  (packages/nest/src/catalog/validity-window.ts:96-103), so only a caller of an adapter's own `publishPlanVersionDraft` or
  `publishDraft` can give one.
- Reports of a reversal that give back more than they withdraw do not commute: `ReportTotals.OrderMatters`, with the exact
  condition in `ReportTotals.HeardReinstated`.

## Model

| member | source | states |
|---|---|---|
| LedgerRuns.ReversalBalance | packages/adapter-drizzle/src/drizzle-subscriber-reversal.ts:97-141 | After any run of steps, what each reversal withdrew and was not given back equals what it holds: of credits, reopened on invoices, and in cases not covered, less what it credited; and 0 ≤ covered cases ≤ given back ≤ withdrawn |
| LedgerRuns.PaymentConservation | packages/adapter-drizzle/src/drizzle-subscriber-payment.repository.ts:112-166 | After any run, each payment's amount is what it settles over all invoices, plus the credits it left, plus what its reversals hold reopened |
| LedgerRuns.CreditsSolvent | packages/adapter-drizzle/src/drizzle-subscriber-payment-rows.ts:107-121 | After any run every credit owes at least nothing and at most what it holds, exactly, without the clamp the read applies |
| LedgerRuns.InvoicesSolvent | packages/adapter-drizzle/src/drizzle-subscriber-payment.repository.ts:131-153 | After any run no payment settles less than nothing anywhere or more of an invoice than all payments together; an invoice that is not cancelled is settled by at most its gross, or by nothing where that is not positive, and then no payment settles any of it; and no payment settles any of a cancelled one |
| LedgerRuns.OneInvoiceOwes | packages/adapter-drizzle/src/drizzle-invoice-chain.ts:44-55 | After any run at most one invoice of a chain owes, and it is the one the walk from the chain's first invoice finds |
| LedgerRuns.RefundLife | packages/adapter-drizzle/src/drizzle-subscriber-payment.repository.ts:339-421 | After any run each refund has either ended, holding nothing of any credit and with no open case, or is paid out in full of credits and as its case |
| LedgerRuns.EndedAbsorbs | packages/adapter-drizzle/src/drizzle-subscriber-payment.repository.ts:378-386 | No step of any kind changes a refund that ended, or writes an entry for it |
| LedgerRuns.EndedForGood | packages/adapter-drizzle/src/drizzle-subscriber-payment.repository.ts:378-386 | Nor does any run that follows |
| LedgerRuns.RefundPaysOnce | packages/adapter-drizzle/src/drizzle-subscriber-payment.repository.ts:792-809 | After any run no credit is paid out twice, or given back twice, for one refund: the insert never meets its conflict |
| LedgerRuns.ReportsHeard | packages/adapter-drizzle/src/drizzle-subscriber-reversal.ts:97-141 | Whatever else a run holds, what a reversal recorded is what the accepted reports of it come to one after another |
| LedgerRuns.ReportsComeToLargest | packages/adapter-drizzle/src/drizzle-subscriber-reversal.ts:97-141 | Reports that give back no more than they withdraw leave the largest withdrawn and the largest given back, interleaved with any other steps |
| LedgerRuns.RunsCommute | packages/adapter-drizzle/src/drizzle-subscriber-reversal.ts:97-141 | Two runs that accept the same reports of a reversal, in any order and with any repeated, record the same totals |
| LedgerRuns.RunSound | packages/adapter-drizzle/src/drizzle-subscriber-reversal.ts:73-142 | The whole invariant of the books holds after every run |
| ReportTotals.HeardWithdrawn | packages/adapter-drizzle/src/drizzle-subscriber-reversal.ts:97-141 | Whatever is reported, the withdrawn total is the largest reported, and what was given back stays between nothing and it |
| ReportTotals.HeardReinstated | packages/adapter-drizzle/src/drizzle-subscriber-reversal.ts:115-119 | The give-back total is the largest reported if and only if a report of it arrives no sooner than a withdrawal that reaches it |
| ReportTotals.HeardInAnyOrder | packages/adapter-drizzle/src/drizzle-subscriber-reversal.ts:97-141 | Reports with reinstated ≤ withdrawn come to the largest of each |
| ReportTotals.ReportsCommute | packages/adapter-drizzle/src/drizzle-subscriber-reversal.ts:97-141 | The same reports in any order, with duplicates, come to the same |
| ReportTotals.OrderMatters | packages/adapter-drizzle/src/drizzle-subscriber-reversal.ts:115-119 | Two orders of two reports, one giving back more than was withdrawn by then, come to different totals |
| ReversalReports.RecordReversalSound | packages/adapter-drizzle/src/drizzle-subscriber-reversal.ts:73-142 | Every report keeps the books sound; a refused one changes nothing |
| ReversalReports.RecordReversalEffect | packages/adapter-drizzle/src/drizzle-subscriber-reversal.ts:73-142 | An accepted report records the larger totals under its own reference, changes no other reversal's totals, and everything it writes is a row of a reversal of the one chain of the payment it names |
| WriterAnswers.ReportAnswered | packages/adapter-drizzle/src/drizzle-subscriber-reversal.ts:73-142 | A report is refused exactly for an unknown payment, another currency, or a reference of another payment's reversal; it is answered as applied if and only if it changes a total its reversal recorded |
| ReversalReports.WithdrawnSound | packages/adapter-drizzle/src/drizzle-subscriber-reversal.ts:97-114 | Applying what was newly withdrawn keeps the books sound and writes within the chain |
| ReversalReports.ReturnedSound | packages/adapter-drizzle/src/drizzle-subscriber-reversal.ts:115-139 | Applying what was newly given back keeps the books sound and writes within the chain |
| WholeWithdrawals.WithdrawKeeps | packages/adapter-drizzle/src/drizzle-subscriber-reversal.ts:199-251 | After a withdrawal its reversal holds exactly the amount more, every other reversal what it held, lifted covers included; solvency and chain containment hold |
| WholeWithdrawals.BelowNothingMeanwhile | packages/adapter-drizzle/src/drizzle-subscriber-reversal.ts:227-239 | Between the first write and the lifting, a credit stands below nothing exactly where covers of it are lifted, and by their sum |
| LiftingRun.CoverComesToBeLifted | packages/adapter-drizzle/src/drizzle-subscriber-reversal.ts:199-251 | A run from empty tables, for any amount: a first reversal is covered by a credit, a second lifts that cover; the credit stands below nothing by the amount in between, and afterwards the first reversal holds the amount reopened on the invoice, which is owed again |
| WholeWithdrawals.WrittenKeeps | packages/adapter-drizzle/src/drizzle-subscriber-reversal.ts:215-232 | After the first write every cover to be lifted is still held, and with those given back no credit stands below nothing |
| WholeWithdrawals.LiftAllKeeps | packages/adapter-drizzle/src/drizzle-subscriber-reversal.ts:233-239 | Each round of the lifting loop leaves one cover less outstanding and what every reversal holds unchanged |
| WholeWithdrawals.TakenCreditsOn | packages/adapter-drizzle/src/drizzle-subscriber-reversal.ts:215-226 | Of each own credit the withdrawal takes its open part and the covers it lifts of it, and names no other credit |
| WholeWithdrawals.LiftedLent | packages/adapter-drizzle/src/drizzle-subscriber-reversal.ts:332-353 | Every cover lifted is held by a reversal of another payment of the same chain |
| LiftedCovers.LiftCoverKeeps | packages/adapter-drizzle/src/drizzle-subscriber-reversal.ts:367-423 | Lifting one cover keeps solvency against the covers still outstanding, nets and bounds |
| LiftedCovers.LiftCoverExcess | packages/adapter-drizzle/src/drizzle-subscriber-reversal.ts:367-423 | A lifted cover is taken again elsewhere or becomes a case: no reversal holds more or less afterwards |
| LiftedCovers.LiftCoverWrites | packages/adapter-drizzle/src/drizzle-subscriber-reversal.ts:367-423 | What a lifted cover writes lies in the chain of the payment being withdrawn |
| LiftedCovers.LiftCoverFromCredits | packages/adapter-drizzle/src/drizzle-subscriber-reversal.ts:403-412 | The reversals of a payment never record more taken of its credits than it left |
| Withdrawals.WithdrawalInReach | packages/adapter-drizzle/src/drizzle-subscriber-reversal.ts:258-282 | Every credit and invoice a withdrawal takes of belongs to the chain of its payment |
| Withdrawals.WithdrawalWithinOpen | packages/adapter-drizzle/src/drizzle-subscriber-reversal.ts:258-282 | Own and covering credits are different ones, each taken by no more than is open; each invoice by no more than the payment settles there |
| WithdrawalAnswers.CoveringAre | packages/adapter-drizzle/src/drizzle-subscriber-reversal.ts:429-465 | A credit covers what a payment would open again if and only if another payment of its chain left it and the payment settled anything |
| WithdrawalAnswers.CoversOldestFirst | packages/adapter-drizzle/src/drizzle-subscriber-reversal.ts:461 | Of two credits that cover, told apart by moment and then id, the older is taken whole before anything is taken of the younger |
| WithdrawalAnswers.OpensOnceCoversAreSpent | packages/core/src/subscriber-payment-rules.ts:272-289 | An invoice is opened again only where every credit that covers it was taken whole |
| WithdrawalAnswers.CountedOldestFirst | packages/core/src/subscriber-payment-rules.ts:164-185 | What reversals took of a payment's credits counts against the oldest first: where one has less left than its amount, every older one has nothing left |
| WithdrawalAnswers.OwnOldestFirst | packages/core/src/subscriber-payment-rules.ts:251-263 | Own credits are taken by what is left of them, open or not, the oldest first: nothing of a younger one while an older has any left |
| WithdrawalAnswers.FirstCoverFirst | packages/adapter-drizzle/src/drizzle-subscriber-reversal.ts:336-353 | Of the covers one credit gave, the one given first is lifted first, and whole before anything of a later one |
| WithdrawalAnswers.CoversAllLifted | packages/adapter-drizzle/src/drizzle-subscriber-reversal.ts:233-239 | Where a withdrawal reaches further beyond the open part of a credit than it lifts of its covers, it lifts every one of them whole |
| Brought.OwnLeft | packages/core/src/subscriber-payment-rules.ts:164-185 | Of its own credits a payment's reversals may take what it left less what they took already |
| Brought.OwnOpen | packages/core/src/subscriber-payment-rules.ts:164-185 | Each credit the payment left is read once, open by what it owes; no other is |
| Brought.InvoicesOn | packages/core/src/subscriber-payment-rules.ts:372-378 | What is gathered per invoice is the payment's net there |
| Brought.CoveringOffers | packages/adapter-drizzle/src/drizzle-subscriber-reversal.ts:429-465 | A covering credit is offered by what is open of it, once, and only where another payment of the chain left it |
| Brought.CoveringInChain | packages/adapter-drizzle/src/drizzle-subscriber-reversal.ts:435-447 | A covering credit was left by a payment of the reversed payment's own chain |
| Brought.CoversGivenPair | packages/core/src/subscriber-payment-rules.ts:424-440 | The covers of a credit are what other payments' reversals hold of it, each reversal once |
| ReversalFrame.WritesTwice | packages/adapter-drizzle/src/drizzle-subscriber-reversal.ts:199-251 | Writes confined to one chain compose to writes confined to it |
| ReversalFrame.ReversalKeepsConserved | packages/adapter-drizzle/src/drizzle-subscriber-reversal.ts:288-311 | No reversal changes what any payment brought beside its reversals |
| ReversalFrame.OneChainOneSubscriber | packages/adapter-drizzle/src/drizzle-subscriber-reversal.ts:144-165 | Every credit a reversal of the chain reaches is of the subscriber whose credits the turn holds, in the payment's currency |
| ChainReads.SameWithdrawal | packages/adapter-drizzle/src/drizzle-subscriber-reversal.ts:254-286 | What a withdrawal takes and which covers it lifts is read in its own chain: books that differ only in rows of other chains give the same |
| ChainReads.SameReinstatement | packages/adapter-drizzle/src/drizzle-subscriber-reversal.ts:505-580 | And so for what a give-back divides into and which cases it closes |
| ChainReads.ReportElsewhere | packages/adapter-drizzle/src/drizzle-subscriber-reversal.ts:73-142 | A report of a payment of another chain changes nothing of this chain |
| ChainReads.ReportsApart | packages/adapter-drizzle/src/drizzle-subscriber-reversal.ts:73-142 | Reports of different chains do not reach one another: after one, a reversal of the other takes, lifts and gives back what it would have before |
| GiveBacks.ReinstateKeeps | packages/adapter-drizzle/src/drizzle-subscriber-reversal.ts:505-613 | A give-back keeps solvency, nets and bounds, and writes within the chain |
| GiveBacks.ReinstateExcess | packages/adapter-drizzle/src/drizzle-subscriber-reversal.ts:567-611 | What the reversal holds falls by what is given back, less what covers cases |
| GiveBacks.NothingBeyond | packages/core/src/subscriber-payment-rules.ts:335-363 | In every sound state nothing of a give-back goes beyond what the reversal took |
| GiveBacks.GivenWithin | packages/adapter-drizzle/src/drizzle-subscriber-reversal.ts:526-547 | No credit has more returned than the reversal holds of it |
| GiveBacks.SettledWithin | packages/adapter-drizzle/src/drizzle-subscriber-reversal.ts:562-566 | No invoice is settled again beyond what it owes now, and only invoices standing for what was opened are; which one that is, `GiveBackAnswers.GiveBackDoes` says |
| GiveBackAnswers.GiveBackDoes | packages/adapter-drizzle/src/drizzle-subscriber-reversal.ts:559-612 | A give-back settles at most one invoice, the one that stands in the chain, of what that owes of what is left once cases and credits have theirs; the rest is one new credit of the payment's subscriber, and there is one only where the invoice then owes nothing |
| GiveBackAnswers.GiveBackParts | packages/core/src/subscriber-payment-rules.ts:335-400 | It covers of the cases what no give-back covered, returns of the credits what the reversal holds of them, then settles, then credits, each up to its bound, and nothing is left |
| GiveBackAnswers.ReopenedStands | packages/adapter-drizzle/src/drizzle-subscriber-reversal.ts:559-566 | What a reversal opened is settled again where its payment's chain stands now; where nothing stands, the invoice it is settled on owes nothing |
| GiveBackAnswers.SettlesWhereItStands | packages/adapter-drizzle/src/drizzle-subscriber-payment.repository.ts:211-258 | In sound books whatever a payment settles it settles of the one invoice that stands in its chain |
| GiveBackAnswers.ReturnsInOrder | packages/core/src/subscriber-payment-rules.ts:478-493 | Nothing is returned to a credit before every credit before it has back what the reversal took: those the payment left first, and of either kind the older |
| GiveBackAnswers.ClosesTheCovered | packages/adapter-drizzle/src/drizzle-subscriber-reversal.ts:575-581 | A give-back closes a case where it and all about its reversal not opened after it come to no more than all give-backs so far covered, and no other but where it and those opened before it do; no case of anything else changes |
| Reinstatements.ReopenedPartsTotal | packages/core/src/subscriber-payment-rules.ts:390-400 | Gathering what was opened on the invoices that stand loses and doubles nothing |
| Reinstatements.ReopenedInChain | packages/adapter-drizzle/src/drizzle-subscriber-reversal.ts:559-566 | Whichever invoice stands now for what was opened is one of the payment's chain that it may settle, no cancellation invoice |
| Reinstatements.OwnFirstOrdered | packages/core/src/subscriber-payment-rules.ts:478-493 | Of any two credits of the list, a credit the payment left comes before one it did not; of either kind the one with the earlier moment, and of one moment the lower id |
| PaymentRules.WithdrawalAddsUp | packages/core/src/subscriber-payment-rules.ts:240-298 | Every cent withdrawn is taken once: credits, covering credits, invoices and unmatched add up |
| PaymentRules.WithdrawalOn | packages/core/src/subscriber-payment-rules.ts:240-298 | No credit, covering credit or invoice is taken beyond what it offers |
| PaymentRules.WithdrawalOrder | packages/core/src/subscriber-payment-rules.ts:226-239 | Own credits are exhausted before invoices, covering credits before an invoice is opened, everything before anything is unmatched beyond it |
| PaymentRules.BeyondTheWhole | packages/core/src/subscriber-payment-rules.ts:251-263 | A credit is reached beyond its open part only once that is taken whole |
| PaymentRules.WithdrawalParts | packages/core/src/subscriber-payment-rules.ts:240-298 | The four loops compute the specified division |
| PaymentRules.LiftedTotal | packages/core/src/subscriber-payment-rules.ts:450-470 | No more is lifted than reaches beyond the open parts |
| PaymentRules.LiftedPair | packages/core/src/subscriber-payment-rules.ts:450-470 | Of each cover no more is lifted than it holds, and only of credits reached beyond their open part |
| PaymentRules.CoversLifted | packages/core/src/subscriber-payment-rules.ts:450-470 | The nested loop computes the specified covers |
| PaymentRules.ReinstatementAddsUp | packages/core/src/subscriber-payment-rules.ts:335-363 | Every cent given back returns once; only what exceeds everything taken goes beyond |
| PaymentRules.ReinstatementOrder | packages/core/src/subscriber-payment-rules.ts:327-334 | Cases are covered before credits, and credits made whole before invoices |
| PaymentRules.ReinstatementParts | packages/core/src/subscriber-payment-rules.ts:335-363 | The loops compute the specified division |
| PaymentRules.CoveredInFull | packages/core/src/subscriber-payment-rules.ts:499-511 | A case is closed exactly where it and all opened before it come to no more than was covered |
| PaymentRules.TakenTotal | packages/core/src/subscriber-payment-rules.ts:116-125 | A greedy division takes the amount, or everything on offer where that is less |
| PaymentRules.TakenInOrder | packages/core/src/subscriber-payment-rules.ts:116-125 | Later offers are reached only with what the earlier ones left |
| PaymentRecords.RecordPaymentSound | packages/adapter-drizzle/src/drizzle-subscriber-payment.repository.ts:112-166 | Every payment keeps the books sound, in whatever state its chain is found; a refused one changes nothing |
| PaymentRecords.RecordPaymentEffect | packages/adapter-drizzle/src/drizzle-subscriber-payment.repository.ts:131-163 | The standing invoice owes the rest, down to nothing, no other invoice changes, and the credit left is exactly what nothing was owed for |
| PaymentRecords.CreditInvoiceSound | packages/adapter-drizzle/src/drizzle-subscriber-payment.repository.ts:168-181 | An invoice that states a credit leaves one credit of its amount, once, and a cancellation invoice none |
| PaymentRecords.DividedIs | packages/adapter-drizzle/src/drizzle-subscriber-payment.repository.ts:131-166 | A payment writes its row, a settlement on the invoice that stands of as much as that owes, and a credit of the rest, each where it is above nothing, and no other row |
| WriterAnswers.PaymentAnswered | packages/adapter-drizzle/src/drizzle-subscriber-payment.repository.ts:112-166 | A payment is refused exactly for an unknown invoice, another currency, or a reference recorded before; otherwise it settles what it answers |
| WriterAnswers.CreditAnswered | packages/adapter-drizzle/src/drizzle-subscriber-payment.repository.ts:168-181 | An invoice is credited exactly where it asks for less than nothing, cancels none, and was not credited before |
| Corrections.CancelSound | packages/nest/src/billing/invoices/invoice-cancellation.service.ts:362-429 | A cancellation keeps the books sound; a refused one changes nothing |
| Corrections.CancelEffect | packages/adapter-drizzle/src/drizzle-subscriber-payment.repository.ts:211-258 | Afterwards the replacement stands, or nothing does; nothing paid is left on the cancelled invoice, and the replacement is not overpaid; who fills it, `CorrectionAnswers.CancelDoes` says |
| CorrectionAnswers.CancelDoes | packages/core/src/subscription-invoice-correction.ts:341-377 | What a payment had settled of the cancelled invoice moves in or is credited; where any of a payment's is credited, nothing of a payment recorded after it moves in; and in all the smaller of what was settled and what the replacement asks for moves in |
| WriterAnswers.CancelAnswered | packages/nest/src/billing/invoices/invoice-cancellation.service.ts:362-429 | Exactly which cancellations are refused and how; an accepted one writes a cancellation invoice that takes its invoice back in full, and a replacement for what it asks, both in the chain, and changes no other invoice |
| Corrections.CancelledMissing | packages/adapter-drizzle/src/drizzle-subscriber-payment.repository.ts:238-257 | Moving shares neither adds to what a payment brought nor loses any of it |
| Corrections.ReplacementSettled | packages/core/src/subscription-invoice-correction.ts:354-377 | What moves in settles the replacement by no more than it asks for |
| Corrections.CreditedOnceNothingOwed | packages/core/src/subscription-invoice-correction.ts:347-353 | Where anything of a share is credited, the shares up to it fill the replacement, and no later one moves in |
| Corrections.MovingOut | packages/core/src/subscription-invoice-correction.ts:354-377 | Every payment's positive share moves out whole |
| Corrections.SharesOn | packages/core/src/subscription-invoice-correction.ts:300-318 | A payment's share is its net on the invoice |
| Corrections.IssueInvoiceSound | packages/adapter-drizzle/src/drizzle-subscription-invoice.repository.ts:160-177 | Issuing keeps the books sound |
| Refunds.RecordRefundSound | packages/adapter-drizzle/src/drizzle-subscriber-payment.repository.ts:296-421 | Every report of a refund keeps the books sound, first or repeated, ended or not |
| Refunds.DivisionOk | packages/core/src/subscriber-payment-rules.ts:105-126 | A refund takes of each credit of the subscriber in its currency at most once and at most what is open, of no other credit anything, and with the case comes to its amount |
| Refunds.RefundOwnFirst | packages/core/src/subscriber-payment-rules.ts:98-126 | Anything of a credit the payment did not leave is taken only once every open credit it left, of the subscriber in the currency, is taken whole |
| RefundAnswers.RefundDoes | packages/adapter-drizzle/src/drizzle-subscriber-payment.repository.ts:339-371 | A first report opens a case of exactly what goes beyond all that is owed to the subscriber in the currency, and for nothing else; where it opens one every such credit is left with nothing; otherwise no credit is taken of before every one ahead of it is taken whole, own ones first, then older ones |
| RefundAnswers.DividesOverAll | packages/core/src/subscriber-payment-rules.ts:105-126 | What a refund leaves over is its amount less the sum of what every credit of the subscriber in the currency owes |
| RefundAnswers.DividesInOrder | packages/core/src/subscriber-payment-rules.ts:110-115 | Of two credits it may draw on, the one ahead, own before other and older before younger, is taken whole first |
| WriterAnswers.RefundAnswered | packages/adapter-drizzle/src/drizzle-subscriber-payment.repository.ts:296-421 | Exactly which reports are refused; a first one records the refund as reported; a repeated one changes nothing but its status, never once it has ended, unless it ends it |
| WriterAnswers.PayoutAnswered | packages/adapter-drizzle/src/drizzle-subscriber-payment.repository.ts:423-455 | A payout is refused exactly for an unknown credit or beyond what the credit owes, and otherwise writes one entry |
| Refunds.TakenByRefundOn | packages/adapter-drizzle/src/drizzle-subscriber-payment.repository.ts:399-413 | What a refund that ends gives back of each credit is exactly what it holds of it |
| Refunds.EndedLives | packages/adapter-drizzle/src/drizzle-subscriber-payment.repository.ts:386-420 | A refund that ends holds nothing afterwards and leaves no case open |
| Refunds.RecordPayoutEffect | packages/adapter-drizzle/src/drizzle-subscriber-payment.repository.ts:423-455 | A payout takes no more than the credit owes, and exactly its amount |
| Refunds.CloseCaseSound | packages/adapter-drizzle/src/drizzle-reconciliation-cases.ts:99-110 | An operator closing a case changes no amount |
| InvoiceChain.StandingInvoiceIdOf | packages/adapter-drizzle/src/drizzle-invoice-chain.ts:44-55 | The open-ended loop ends and finds the standing invoice |
| InvoiceChain.StandingStaysInChain | packages/adapter-drizzle/src/drizzle-invoice-chain.ts:38-55 | The walk stays in its chain and ends on an invoice that is not cancelled |
| InvoiceChain.StandingFromTheFirst | packages/adapter-drizzle/src/drizzle-invoice-chain.ts:38-55 | From the first invoice and from every replacement the walk gives one answer |
| InvoiceChain.OnlyTheStandingOwes | packages/adapter-drizzle/src/drizzle-invoice-chain.ts:57-78 | Whatever is settled where, only the invoice that stands can owe |
| OpenSums.OwedReadsAgree | packages/adapter-drizzle/src/drizzle-open-sums.ts:19-40 | In whatever order its settlements are read, adding them up gives what the books say an invoice owes; the database, with its signed sum and its NOT EXISTS, finds it owing exactly where that is positive, and by as much |
| OpenSums.OpenReadsAgree | packages/adapter-drizzle/src/drizzle-open-sums.ts:43-52 | The database sums what a credit holds to what the books say; added up row by row it is that, or nothing where that is below nothing |
| InvoiceChain.CancelKeepsChained | packages/adapter-drizzle/src/drizzle-subscription-invoice.repository.ts:218-283 | A cancellation of the standing invoice keeps every chain's shape |
| InvoiceChain.CancelMovesStanding | packages/adapter-drizzle/src/drizzle-subscription-invoice.repository.ts:242-261 | Afterwards the replacement stands for the whole chain, or nothing |
| Locks.NoCircle | packages/adapter-drizzle/src/drizzle-subscriber-reversal.ts:144-165 | Transactions that ask in order, each save for a last lock that comes after all it holds, never wait on one another in a circle, however many there are |
| Locks.LedgerNeverCircles | packages/adapter-drizzle/src/drizzle-subscriber-payment.repository.ts:93-100 | Whatever steps of the ledger are under way at once, after whatever run and however far each has come: no circle of waits |
| Locks.AsksPermitted | packages/adapter-drizzle/src/drizzle-subscriber-payment.repository.ts:112-455 | Every step of the ledger, payments, refunds, payouts, cancellations, reports and closed cases, asks in order save for a last lock |
| Locks.OrderlyUnlessOther | packages/adapter-drizzle/src/drizzle-subscriber-reversal.ts:91-96 | A report asks in order if and only if the reference it bears is new or of a reversal of a payment of the chain it names; in either case it is permitted |
| Locks.ReferenceOfAnotherChain | packages/adapter-drizzle/src/drizzle-subscriber-reversal.ts:166-196 | A run that ends in a report of the other kind: it locks a row of another chain, and is refused |
| Locks.OneTurn | packages/adapter-drizzle/src/drizzle-subscriber-reversal.ts:151-163 | The turns a reversal takes are one: its payment settles invoices of one chain only |
| Locks.ApplyingUnder | packages/adapter-drizzle/src/drizzle-subscriber-reversal.ts:97-141 | Everything a report locks after its own row is the turn it holds, or rows that turn guards: the reversals whose covers it lifts and the cases it closes |
| Locks.CoversUnder | packages/adapter-drizzle/src/drizzle-subscriber-reversal.ts:373-376 | The rows of the reversals whose covers are lifted are guarded by the turn held |
| Locks.AgainUnder | packages/adapter-drizzle/src/drizzle-subscriber-reversal.ts:562-566 | The later lock on a reopened invoice's chain re-locks the turn held |
| Locks.RefundAsksInOrder | packages/adapter-drizzle/src/drizzle-subscriber-payment.repository.ts:296-421 | A refund asks for its subscriber's credits by id, then its own row, then the case that row guards |
| LockedWrites.WriteApart | packages/adapter-drizzle/src/drizzle-invoice-chain.ts:1-6 | After any run, two steps that hold no lock in common do not both write on one credit, settle or reopen invoices of one chain, or change one reversal, refund or case; refunds reported failed under another subscriber's payment aside |
| LockedWrites.SettlementsInTurn | packages/adapter-drizzle/src/drizzle-subscriber-reversal.ts:144-165 | Every settlement a step writes is of an invoice of a chain whose turn it holds |
| LockedWrites.EntriesOnHeldCredits | packages/adapter-drizzle/src/drizzle-subscriber-payment.repository.ts:313-315 | Every entry a step writes on a credit there was is on one whose row it holds, save in that one case |
| LockedWrites.CasesLocked | packages/adapter-drizzle/src/drizzle-reconciliation-cases.ts:38-67 | A case that was there is closed only by a step that holds its row, cases a give-back covers after a withdrawal included |
| LockedWrites.SubscribersAfter | packages/adapter-drizzle/src/drizzle-subscriber-payment.repository.ts:339-371 | After every run a refund was paid out, and given back, only on credits of the subscriber whose payment it was recorded for |
| RefundUnderAnother.GivenBackOnHeld | packages/adapter-drizzle/src/drizzle-subscriber-payment.repository.ts:313-334 | What a refund's report gives back it writes on credits it holds if and only if it names a payment of the subscriber whose payment the refund was recorded for |
| RefundUnderAnother.GivenBackUnheld | packages/adapter-drizzle/src/drizzle-subscriber-payment.repository.ts:313-334 | A run from empty tables after which a report gives back a refund on one subscriber's credit while it holds only another's |
| Ledger.Ledger.RecordReversalReport | packages/adapter-drizzle/src/drizzle-subscriber-reversal.ts:73-142 | The tables after a report are what the specified step makes of the books |
| Ledger.Ledger.WithdrawMore | packages/adapter-drizzle/src/drizzle-subscriber-reversal.ts:199-251 | The row-by-row withdrawal does what the withdrawal on the whole books does, which the rows of `WithdrawalAnswers` and `WholeWithdrawals` say of the tables alone, and answers with what it took of credits |
| Ledger.Ledger.LiftCoverOf | packages/adapter-drizzle/src/drizzle-subscriber-reversal.ts:367-423 | The rows written for one lifted cover are the specified ones |
| Ledger.Ledger.GiveBackMore | packages/adapter-drizzle/src/drizzle-subscriber-reversal.ts:505-613 | The rows written for a give-back are those of `GiveBackAnswers.GiveBackDoes`, and it answers with what covered cases |
| Ledger.Ledger.CloseCasesOf | packages/adapter-drizzle/src/drizzle-reconciliation-cases.ts:38-67 | Exactly the open cases named and picked are closed, each once, and answered |
| Ledger.Ledger.RecordPaymentOf | packages/adapter-drizzle/src/drizzle-subscriber-payment.repository.ts:112-166 | The tables after a payment are what the specified step makes of the books |
| Ledger.Ledger.CreditInvoiceOf | packages/adapter-drizzle/src/drizzle-subscriber-payment.repository.ts:168-181 | The tables after crediting an invoice are the specified ones |
| Ledger.Ledger.MoveShares | packages/adapter-drizzle/src/drizzle-subscriber-payment.repository.ts:211-258 | Two loops write exactly the specified settlements and credits |
| Ledger.Ledger.CancelInvoice | packages/nest/src/billing/invoices/invoice-cancellation.service.ts:362-429 | The tables after a cancellation are what the step on the whole books makes of them, which `CorrectionAnswers.CancelDoes` and `WriterAnswers.CancelAnswered` say of the tables alone |
| Ledger.Ledger.RecordRefundReport | packages/adapter-drizzle/src/drizzle-subscriber-payment.repository.ts:296-336 | The tables after a refund's report are what the step on the whole books makes of them, which `RefundAnswers.RefundDoes` and `WriterAnswers.RefundAnswered` say of the tables alone |
| Ledger.Ledger.RestateRefund | packages/adapter-drizzle/src/drizzle-subscriber-payment.repository.ts:378-421 | A repeated report changes the tables as specified |
| Ledger.Ledger.RecordPayoutOf | packages/adapter-drizzle/src/drizzle-subscriber-payment.repository.ts:423-455 | The tables after a payout are the specified ones |
| Collection.AtMostOneOnItsWay | packages/adapter-drizzle/src/drizzle-invoice-collection.repository.ts:113-138 | In every reachable state at most one attempt of a whole chain is submitted or pending |
| Collection.AttemptsOfAnInvoice | packages/adapter-drizzle/src/drizzle-invoice-collection.repository.ts:241-280 | In every reachable state an invoice's attempts are numbered 1, 2, 3, …, the first of them 1, at most one is open or succeeded, and an open one is the last |
| Collection.SubmitPlannedSound | packages/adapter-drizzle/src/drizzle-invoice-collection.repository.ts:302-325 | Sending a planned attempt without looking at the chain's other invoices keeps one on its way, because its invoice still owes |
| Collection.WriteNextSound | packages/adapter-drizzle/src/drizzle-invoice-collection.repository.ts:241-280 | Writing an attempt keeps every invariant |
| Collection.NextAttempt | packages/adapter-drizzle/src/drizzle-invoice-collection.repository.ts:254-267 | An attempt is written only for the standing invoice, under the number after its last, for all it owes; only the first is sent at once |
| Collection.RecordOutcomeSound | packages/adapter-drizzle/src/drizzle-invoice-collection.repository.ts:508-568 | Outcomes keep every invariant, late successes included; what each leaves of its attempt, `CollectionAnswers.OutcomeTells` says |
| CollectionAnswers.OutcomeTells | packages/adapter-drizzle/src/drizzle-invoice-collection.repository.ts:508-568 | A report on an attempt on its way is taken and leaves it as reported, every other as it was; a success of a failed one is taken unless another of the invoice is on its way or succeeded, and withdraws what is scheduled either way; one not taken leaves its attempt as it was |
| CollectionAnswers.AbandonTells | packages/adapter-drizzle/src/drizzle-invoice-collection.repository.ts:570-602 | An attempt is answered to be sent again if and only if it was sent, is not settled and its invoice still owes, and fails where that owes nothing |
| CollectionAnswers.NextTakes | packages/adapter-drizzle/src/drizzle-invoice-collection.repository.ts:241-280 | Exactly when an attempt is written, and what it then is: numbered by the attempts there were, for all that is owed |
| CollectionAnswers.UpdatesTell | packages/adapter-drizzle/src/drizzle-invoice-collection.repository.ts:302-341 | For each conditional update exactly which statuses it matches, what it leaves of its attempt, and that no other changes |
| CollectionAnswers.HeldOnce | packages/adapter-drizzle/src/drizzle-invoice-collection.repository.ts:604-619 | Of two who try to hold an attempt last held before a moment only the first gets it |
| CollectionAnswers.ListedCanBePlanned | packages/adapter-drizzle/src/drizzle-invoice-collection.repository.ts:405-475 | While the last attempt tells, every invoice listed to be collected again can be planned for, unless the chain has one on its way |
| Collection.LastTellsUnless | packages/adapter-drizzle/src/drizzle-invoice-collection.repository.ts:410-413 | That a last attempt neither open nor succeeded means none is, is kept by a step if and only if the step is not a success arriving behind a later attempt |
| Collection.ListedAreFree | packages/adapter-drizzle/src/drizzle-invoice-collection.repository.ts:405-475 | While that holds, the list of invoices to collect again names none of which an attempt is open or succeeded |
| Collection.SuccessBehindTheLast | packages/adapter-drizzle/src/drizzle-invoice-collection.repository.ts:405-475 | A run where it fails: the first attempt succeeds late behind a withdrawn last one, and the list names the invoice as long as nothing is settled on it, and not once its gross is |
| Collection.ReadStays | packages/adapter-drizzle/src/drizzle-invoice-collection.repository.ts:585-598 | What a turn read before writing stays true while failures, pending answers and reversals are recorded outside it |
| Collection.CancelStepSound | packages/nest/src/billing/invoices/invoice-cancellation.service.ts:707-719 | A cancellation, which withdraws what is planned for its invoice, keeps every invariant |
| CollectionTable.Collections.WriteNextOf | packages/adapter-drizzle/src/drizzle-invoice-collection.repository.ts:241-280 | The table after writing the next attempt is the specified one |
| CollectionTable.Collections.RecordOutcomeOf | packages/adapter-drizzle/src/drizzle-invoice-collection.repository.ts:508-568 | The conditional updates of an outcome change the table, and answer, as `CollectionAnswers.OutcomeTells` says |
| CollectionTable.Collections.SubmitPlannedOf | packages/adapter-drizzle/src/drizzle-invoice-collection.repository.ts:302-325 | The conditional update changes the table as specified |
| CollectionTable.Collections.AbandonPaidOf | packages/adapter-drizzle/src/drizzle-invoice-collection.repository.ts:570-602 | The conditional update and its answer are those of `CollectionAnswers.AbandonTells` |
| CollectionTable.Collections.MarkReversedOf | packages/adapter-drizzle/src/drizzle-invoice-collection.repository.ts:492-506 | The conditional update changes the table as specified |
| Numbering.NumbersHaveNoGap | packages/adapter-drizzle/src/drizzle-subscription-invoice.repository.ts:785-797 | For every interleaving with commits, aborts and savepoint rollbacks, a year's committed invoices bear exactly 1 to its last, each once |
| Numbering.PairsAreConsecutive | packages/adapter-drizzle/src/drizzle-subscription-invoice.repository.ts:242-253 | A committed replacement stands right after the cancellation invoice of its write, and of one year bears the next number |
| Numbering.CommitSound | packages/adapter-drizzle/src/drizzle-subscription-invoice.repository.ts:160-177 | A commit puts what was written exactly where the committed numbers end |
| Numbering.RollBackSound | packages/adapter-drizzle/src/drizzle-subscription-invoice.repository.ts:222-224 | Rolling back a savepoint gives up its numbers and the years first drawn of in it, and keeps the invariant |
| Numbering.RollBackReturns | packages/adapter-drizzle/src/drizzle-subscription-invoice.repository.ts:222-224 | Whatever a transaction draws and writes after a savepoint, and others meanwhile, rolling back leaves it with what it had before |
| Numbering.DrawWaitsItsTurn | packages/adapter-drizzle/src/drizzle-subscription-invoice.repository.ts:781-797 | In every reachable state a year's row is raised by one open transaction at most; another that draws waits for it, and then goes through: under the next number where the first commits, under the first number that one had drawn where it aborts |
| PromoSlots.CountIsHolds | packages/adapter-drizzle/src/drizzle-promo-code-hold.repository.ts:53-85 | After every run a code's count is the number of its holds, and no offer has two |
| PromoSlots.FloorNeverBites | packages/adapter-drizzle/src/drizzle-promo-code-hold.repository.ts:203-215 | Lowering a count by ended holds never reaches below nothing |
| PromoSlots.OverrunOnlyByEdit | packages/adapter-drizzle/src/drizzle-promo-code.repository.ts:204-214 | A step lets what is taken pass the limit, or pass it further, if and only if it is an edit that lowers the limit to below what is taken |
| PromoSlots.NeverPastTheLimit | packages/adapter-drizzle/src/drizzle-promo-code.repository.ts:143-154 | Redemptions and holds never pass the limit in a run without such an edit |
| PromoSlots.EverySlotEndsOnce | packages/adapter-drizzle/src/drizzle-promo-code-hold.repository.ts:128-176 | Over every run the slots taken are those released, expired and converted and those still held |
| PromoSlots.LoopIsGrouped | packages/adapter-drizzle/src/drizzle-promo-code-hold.repository.ts:194-216 | The loop over a map of counts leaves the codes as the one grouped statement does, for any ended holds |
| PromoSlots.ConvertSound | packages/adapter-drizzle/src/drizzle-promo-code-hold.repository.ts:128-147 | A conversion moves one slot of its code from held to redeemed, and touches no other code |
| PromoAnswers.SweepEnds | packages/adapter-drizzle/src/drizzle-promo-code-hold.repository.ts:149-176 | A sweep ends exactly the holds that have expired by then, of the code it is for, and not handed to its own transaction; it answers how many, and every count is the number of holds left |
| PromoAnswers.TakeTakes | packages/adapter-drizzle/src/drizzle-promo-code-hold.repository.ts:53-85 | A hold is taken exactly where the code has a slot free and the offer holds none, and is told which was missing |
| PromoAnswers.ReleaseEnds | packages/adapter-drizzle/src/drizzle-promo-code-hold.repository.ts:104-126 | A release ends the offer's hold and no other, and one asked for unmoved only where it still expires then |
| PromoAnswers.HandedOverSurvives | packages/adapter-drizzle/src/drizzle-promo-code-hold.repository.ts:87-147 | A hold handed to a transaction while it runs outlives every sweep that transaction makes and can then be converted there |
| PromoAnswers.ConvertEnds | packages/adapter-drizzle/src/drizzle-promo-code-hold.repository.ts:128-147 | What is converted is one hold of the code the transaction was handed, and every other stays |
| PromoAnswers.ClaimReleased | packages/adapter-drizzle/src/drizzle-promo-code.repository.ts:143-181 | A redemption is counted exactly where a slot is free, and given up again leaves the code as it was |
| PromoAnswers.ExhaustedUntilReleased | packages/adapter-drizzle/src/drizzle-promo-code.repository.ts:156-181 | A code is exhausted exactly once its redemptions reach its limit while it is active; giving one up makes it active again |
| PromoAnswers.DeletedIsOver | packages/adapter-drizzle/src/drizzle-promo-code.repository.ts:134-141 | A deleted code gives out no slot in any run that follows |
| PromoTables.Tables.ExpireDueInLoop | packages/adapter-drizzle/src/drizzle-promo-code-hold.repository.ts:149-164 | The deletion and the loop reach the state and the count the sweep is specified by |
| PromoTables.Tables.ExpireDueGrouped | packages/adapter-prisma/src/prisma-promo-code-hold.repository.ts:153-176 | The grouped statement reaches the same state and count |
| PromoTables.Tables.GiveBack | packages/adapter-drizzle/src/drizzle-promo-code-hold.repository.ts:194-216 | The loop lowers every code as the grouped statement would |
| PromoTables.Tables.TakeHold | packages/adapter-drizzle/src/drizzle-promo-code-hold.repository.ts:53-85 | The tables after taking a hold are the specified ones |
| PromoTables.Tables.Convert | packages/adapter-drizzle/src/drizzle-promo-code-hold.repository.ts:128-147 | One handed-over hold is converted if there is any |
| VersionsOnSale.AlwaysOneOnSale | packages/adapter-drizzle/src/drizzle-plan.repository.ts:330-389 | Over every run that publishes a plan at later and later day starts, without ends or terminations, exactly one version is on sale at every moment from the first start |
| VersionsOnSale.WindowsPartition | packages/adapter-drizzle/src/plan-version-on-sale.ts:17-25 | In such a state it is the version with the latest start not after the moment, and the query answers with it |
| VersionsOnSale.SeamlessOnlyAtDayStart | packages/core/src/active-plan-version-query.ts:35-55 | A successor takes over without a gap if and only if it begins at the start of a UTC day |
| VersionsOnSale.DarkUntilItBegins | packages/core/src/active-plan-version-query.ts:35-55 | A new version leaves exactly one on sale at every moment since the one before began, save from the start of the UTC day it begins within until it begins, when there is none |
| VersionsOnSale.RunKeeps | packages/adapter-drizzle/src/drizzle-plan.repository.ts:229-418 | After every run each plan's numbers are unique, it has at most one draft, and exactly one of its published versions is not superseded |
| VersionsOnSale.FindActiveIsBest | packages/adapter-drizzle/src/drizzle-plan.repository.ts:215-227 | The query answers with a version on sale that no other on sale beats, and with none only where none is |
| VersionsOnSale.FoundWithinItsWindow | packages/adapter-drizzle/src/plan-version-on-sale.ts:17-25 | What is not published, not begun, past its last day, ended, or superseded without a last day is never found |
| VersionsOnSale.FoundBeginsLast | packages/adapter-drizzle/src/drizzle-plan.repository.ts:215-227 | Of what is on sale the one that begins last is found, and of those that begin together the one with the highest number |
| VersionsOnSale.TerminatedIsOff | packages/adapter-drizzle/src/drizzle-plan.repository.ts:410-418 | From the moment a termination names the version is not on sale, and until then as it was |
| VersionsOnSale.PublishDoes | packages/adapter-drizzle/src/drizzle-plan.repository.ts:330-389 | Publishing changes the draft and the one version it supersedes, whose last day is the day before, and nothing else |
| VersionsOnSale.SnapshotAgrees | packages/adapter-drizzle/src/drizzle-plan-catalog-read-sink.adapter.ts:34-47 | The snapshot's one read picks for every plan what the query answers |
| VersionsOnSale.LoadOnSale | packages/adapter-drizzle/src/drizzle-plan-catalog-read-sink.adapter.ts:44-47 | The loop keeps the first row of each plan |
| VersionsOnSale.NoneOnSaleBefore | packages/adapter-drizzle/src/plan-version-on-sale.ts:17-25 | Over every such run none is on sale before the first start |
| VersionsOnSale.BundleAlwaysOneOnSale | packages/adapter-drizzle/src/drizzle-bundle.repository.ts:206-377 | Over every run that publishes a bundle at later and later day starts exactly one version is on sale at every moment from the first start, by the bundle's own rule, and its query answers with it |
| VersionsOnSale.Versions.PublishWithin | packages/adapter-drizzle/src/drizzle-plan.repository.ts:330-389 | The claim and the supersession change the table as specified |
| Pages.FollowPages | packages/adapter-drizzle/src/drizzle-subscriber-payment.repository.ts:601-649 | Following the cursor ends, and lists exactly once, in order, every owing invoice, or with a day given every one of them due before it |
| Pages.PageTells | packages/adapter-drizzle/src/drizzle-subscriber-payment.repository.ts:601-649 | A page is in order of day, year and number; more follow if and only if an invoice it may list is not on it, and each such invoice comes after all it lists |
| Pages.CursorNeedNotOwe | packages/adapter-drizzle/src/drizzle-subscriber-payment.repository.ts:616-629 | A page after an invoice lists what follows it, whether it still owes or not |
| Pages.UnknownCursorStartsOver | packages/adapter-drizzle/src/drizzle-subscriber-payment.repository.ts:616-629 | A cursor no invoice bears starts from the beginning |
| Pages.PagesComeToTotals | packages/adapter-drizzle/src/drizzle-subscriber-payment.repository.ts:690-700 | Per currency the list comes to the total stated as owed, and the overdue list to what is stated as overdue |
| PaymentMethods.ConfirmedLastIsInUse | packages/adapter-drizzle/src/drizzle-subscriber-payment-method.repository.ts:28-98 | However confirmations arrive, at most one method of a subscriber is in use, none was confirmed later, and each replaced one was replaced no sooner than confirmed |
| PaymentMethods.LatestIsInUse | packages/adapter-drizzle/src/drizzle-subscriber-payment-method.repository.ts:64-98 | The one confirmed strictly last is in use, in whatever order they arrive |
| PaymentMethods.DeliveriesAgree | packages/adapter-drizzle/src/drizzle-subscriber-payment-method.repository.ts:28-98 | Two deliveries of the same confirmations, reordered and repeated, leave the same method in use |
| PaymentMethods.OrderDecidesOnlyTies | packages/adapter-drizzle/src/drizzle-subscriber-payment-method.repository.ts:66-69 | For two confirmations the order of arrival decides if and only if they were confirmed at one moment |
| PaymentMethods.ConfirmedDoes | packages/adapter-drizzle/src/drizzle-subscriber-payment-method.repository.ts:28-136 | Exactly when a confirmation is answered as recorded already, of another subscriber, superseded or activated; what it adds, and what it leaves of every row |
| PaymentMethods.Methods.RecordConfirmedOf | packages/adapter-drizzle/src/drizzle-subscriber-payment-method.repository.ts:28-136 | The claim and the two updates change the table as specified |

## Left out

- Query building, injection, row mapping, random ids and transaction plumbing: each method is modelled by its effect on
  the tables.
- Decimal text and its conversion: amounts are whole cents throughout.
- Tax, lines, counter-entries and documents of an invoice: an invoice is its chain, step, subscriber, currency and gross.
  What a cancellation refuses for a missing archive, mandate, address or tax content is not part of this model.
- The tenant and display columns of payments, credits and cases, and the notes and authors of closed cases.
- Isolation below a transaction, except in the numbering model and in `Collection.ReadStays`.
- Locks.LedgerNeverCircles: what each transaction asks for is read of the books as they are committed, its own writes
  beside them; rows it inserted itself, save those under a gateway's reference, no one else can ask for yet. The years'
  rows that a cancellation and an issue draw numbers under are not among the locks; `Numbering` is about those.
- ChainReads.ReportsApart: what is recorded and what is divided is the same in either order of two reports, but which
  random ids the rows are written under is not, so the tables are not said to come out equal.
- Numbering.NumbersHaveNoGap: the transactions are modelled on values rather than as a class, because several sessions
  change one table at once.
- The Prisma forms of the collection attempts and of the chain walk: the same conditional writes and the same loop.
- Catalogue imports that supersede versions without a last day, and edits to a version already published.
- Listing credits, cases, due, planned and unsettled attempts: single filtered queries.
- PromoSlots.NeverPastTheLimit: a limit below nothing counts as nothing.
- Subscriber joins, plan changes, archives, deliveries, notices, audit, settings and the catalogue text.
