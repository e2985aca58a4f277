# Fluvia money engine: a verified model

This project models the part of Fluvia that moves money and proves what it promises: the
double-entry ledger, the payment lifecycles on top of it, the at-least-once queue and the
request idempotency around it, and the arithmetic and text formats underneath.

Every transaction on the database is one atomic step that commits whole or changes
nothing. Row locks, unique indexes, the status triggers and the CHECK constraints of
`packages/db/migrations` are taken as given. Where a property depends on the order of
statements inside a transaction (locks, version checks) the transaction is refined into
its statements (`LedgerLocks.dfy`). Any process may take a step at any time, so late,
repeated and concurrent webhooks, executions and crashes are all runs of the models.

## How the files fit together

- `Prelude.dfy`: optional values, results, and sums over sequences.
- `Money.dfy`, `DecimalText.dfy`, `Base32.dfy`, `CanonicalJson.dfy`: allocation and the
  flat fee, decimal text, unpadded base32 (section 6 of RFC 4648) on 32-bit words, and the
  canonical JSON text behind request hashes.
- `Idempotency.dfy`, `Outbox.dfy`: the key table and the outbox, each as a class run by one
  caller and as a system of any number of callers or workers with crashes.
- `Chart.dfy`, `Ledger.dfy`, `EntrySignature.dfy`, `LedgerService.dfy`: the chart of
  accounts; what a posting does to the tables and what every run keeps; the replay
  signature; the service as a class whose methods are proved against `Ledger.Post`.
- `Acceptance.dfy`: the checks of a posting and of a reversal as one condition each.
- `LedgerLocks.dfy`: postings, rebuilds and verifications one statement at a time.
- `Posting.dfy`: the catalogue of postings, and every run of it from an empty chart.
- `Fsm.dfy`: the transition maps.
- `Books.dfy`, `Engine.dfy`: the ledger as a log of postings, and the lifecycles of
  intents, attempts, refunds, payouts and disputes over it as one state machine.
- `EngineLaws.dfy`: what each step does in any reachable state, told from statuses and
  balances alone.
- `EngineOutcomes.dfy`, `EngineBalances.dfy`, `EngineCaptures.dfy`, `EngineRefunds.dfy`,
  `EnginePayouts.dfy`, `EngineExamples.dfy`: what every run of it keeps, and the runs that
  break what is not kept.
- `Refinement.dfy`, `EngineLedger.dfy`: the tables of the ledger refine the log, so the
  balance formulas hold of the rows of `balance_projections`.
- `Services.dfy`, `ServiceOutcomes.dfy`: the lifecycle services as classes, each call proved
  to be a run of steps, and what an undisturbed call does in any reachable state.
- `Adjustments.dfy`, `AdjustmentLedger.dfy`: four-eyes adjustments of reconciliation cases
  over every race, and what their approvals post on the ledger.

Every lemma switches automatic induction off: its proof is the one that is written.

## What turned out false, and when it holds

- A refund begins without counting the indeterminate refunds of its intent, so "refunded
  plus in flight is at most captured" can break: `EngineRefunds.RefundsOverclaim` is the run
  (60 and then 60 of 100). On every run it holds throughout if and only if each refund that
  began left room for the indeterminate ones (`BoundedIffRoomy`, step by step
  `NextKeepsBoundIff`); a refund of all that remains does so exactly when none is
  indeterminate (`WholeRefundKeepsBoundIff`). What is recorded as refunded never exceeds
  what was captured, because the database checks it (`RefundedIsSettled`).
- With two executions of one payout at work, the branch for insufficient balance can take
  a payout that the other one emitted to `failed` with its money in `payout.in_transit`
  (`EnginePayouts.TwoExecutionsStrand`). Of all steps only that one strands money, exactly
  when it finds the payout in transit or indeterminate (`StrandsIffGivesUpLate`); so on
  every run `payout.in_transit` is the payouts in transit or indeterminate if and only if
  no execution gave up late (`InTransitCustodyIff`). With one execution at a time none does.
- Publishes of an outbox event since its last replay can exceed its attempts: a relay whose
  lease ran out may publish after the sweep and the replay (`StalePublishExceedsAttempts`).
  Replaying a dead event keeps its publishes within its attempts if and only if it is never
  published or no relay still holds an unpublished claim of it (`ReplayKeepsBoundIff`).
  `PublishesAreBounded` separates the late publishes and bounds both kinds on every run.
- A JSON number literal beyond the range of a double reads as an infinity and prints as
  `null`, so it collides with null in a request hash (`CanonicalJson.InfiniteCollides`);
  for all other values the text is canonical.

The code is followed where its comments differ: `pricing.ts` speaks of rounding and the
largest remainder, but `allocate` hands the residue out from the first share on, so the
flat fee is the exact proportion rounded up.

## Model

| member | source | states |
|---|---|---|
| `Money.DealResidue` | packages/money/src/money.ts:162-167 | The round-robin loop gives one unit to each of the first participants, sums to the base plus the residue, and never wraps around |
| `Money.Allocate` | packages/money/src/money.ts:149-168 | Each of the three refusals in its order; otherwise the parts sum exactly to the amount, and each part is known exactly |
| `Money.ResidueIsSmall` | packages/money/src/money.ts:160-163 | For any sign and any valid ratios what truncation leaves over is smaller than the number of ratios and points the amount's way |
| `Money.PartsAreProportional` | packages/money/src/money.ts:149-168 | Every part lies within one minor unit of amount times ratio over total |
| `Money.PlatformFee` | packages/payments-core/src/pricing.ts:28-33 | The flat fee on a positive amount is the proportion rounded up, its mirror on a negative one, and zero on zero |
| `Money.FeeIsUnique` | packages/payments-core/src/pricing.ts:28-33 | The rounded-up proportion is one number, ceil(amount*bps/10000) |
| `Money.CaptureAcceptsFee` | packages/ledger/src/posting.ts:239-243 | With no provider fee a capture of a is accepted exactly when a*(10000-bps) is at least 10000; the fee never exceeds the amount |
| `DecimalText.FromToDecimal` | packages/money/src/money.ts:58-72 | fromDecimal undoes toDecimalString for every amount and every currency |
| `DecimalText.TrimStrips` | packages/money/src/money.ts:60 | Trimming removes all white space at both ends and nothing else |
| `DecimalText.AcceptsIff` | packages/money/src/money.ts:58-72 | A text that spells a number is read, unless it has more decimals than the currency, which is the precision error |
| `DecimalText.RefusesOthers` | packages/money/src/money.ts:58-63 | A text is an invalid amount exactly when, trimmed, it spells no number |
| `DecimalText.ValueIsExact` | packages/money/src/money.ts:69-71 | The amount read is exactly the number that the digits spell, in the minor unit, whatever decimals are left out |
| `DecimalText.MatchReadsSpelling` | packages/money/src/money.ts:5 | The pattern accepts exactly the spellings of a sign, digits and a fraction, and reads back the parts they spell |
| `DecimalText.CanonicalIsImage` | packages/money/src/money.ts:171-179 | The texts that toDecimalString returns are exactly those without redundant zeros, with every decimal, and without a negative zero |
| `DecimalText.SpellingsShareCanonicalText` | packages/money/src/money.ts:58-72 | All accepted spellings of one amount have one canonical text, different amounts have different ones, and a text is its own exactly when it is canonical |
| `Base32.Encode` | packages/auth/src/totp.ts:11-25 | The loop over an unmasked 32-bit accumulator writes the five-bit groups of the bits of the bytes, the last one filled with zeros |
| `Base32.Decode` | packages/auth/src/totp.ts:27-43 | The loop over an unmasked 32-bit accumulator reads the whole bytes of the bits of the symbols, and refuses exactly the texts with a character outside the alphabet once upper-cased and stripped |
| `Base32.DecodeEncode` | packages/auth/src/totp.ts:11-43 | Decoding undoes encoding for every sequence of bytes |
| `Base32.DecodeIsLenient` | packages/auth/src/totp.ts:27-43 | Letters in lower case and padding at the end make no difference to what is decoded |
| `CanonicalJson.TextIsCanonical` | packages/idempotency/src/index.ts:71-79 | Two parsed values have the same text exactly when they are equal up to the order of keys, an infinite number counting as null |
| `CanonicalJson.FiniteTextIsCanonical` | packages/idempotency/src/index.ts:71-79 | Without infinite numbers the text is canonical with no exception |
| `CanonicalJson.InfiniteCollides` | packages/idempotency/src/index.ts:71-72 | A literal beyond the range of a double has the text of null under every key |
| `CanonicalJson.QuoteIsReadBack` | packages/idempotency/src/index.ts:71-79 | The text printed for a string is read back as that string by a reader of section 7 of RFC 8259, for any code units |
| `Idempotency.KeyTable.Execute` | packages/idempotency/src/index.ts:187-256 | A completed row with the same hash is replayed, another hash is a reuse of the key whatever the row's status, an unfinished row is in flight, and none of these changes anything; a new key commits effect, row and response together or nothing; the call is a run of the concurrent system |
| `Idempotency.AtMostOneEffect` | packages/idempotency/src/index.ts:187-256 | Over any number of callers and crashes the effects of a key are its purges plus one while its completed row exists; without a purge at most one |
| `Idempotency.NoHandlerBesideRow` | packages/idempotency/src/index.ts:195-235 | While a row of the key exists, and while another caller holds its claim, no handler runs for it, whatever the hash |
| `Idempotency.AnswersAreCommitted` | packages/idempotency/src/index.ts:213-253 | Every fresh or replayed response is that of a committed effect of the same key and hash |
| `Idempotency.RepeatIsAnsweredByRow` | packages/idempotency/src/index.ts:213-240 | On every run a caller that finds a committed row is answered by it: with the response of the key's committed effect when it is completed and the hashes agree, and no handler runs |
| `Idempotency.OneResponsePerKey` | packages/idempotency/src/index.ts:187-256 | Without purges a key has one effect: one hash and one response |
| `Outbox.PublishesAreBounded` | packages/outbox/src/relay.ts:128-218 | Over all workers, crashes and late marks: current publishes are at most attempts, attempts at most the maximum, and publishes under older claims at most the claims in hand at the replay |
| `Outbox.ReplayKeepsBoundIff` | packages/outbox/src/replay.ts:43-57 | In any reachable state, replaying a dead row keeps its publishes within its attempts on every continuation exactly when it is never published or no relay holds an unpublished claim of it |
| `Outbox.StalePublishExceedsAttempts` | packages/outbox/src/replay.ts:43-57 | The run on which an expired lease publishes after sweep and replay, so publishes exceed attempts |
| `Outbox.DeliveredWasPublished` | packages/outbox/src/relay.ts:186-218 | A delivered row was published by a publish that returned |
| `Outbox.TerminalStatuses` | packages/outbox/src/replay.ts:43-57 | delivered is never left, and dead only by a replay |
| `Outbox.DeliveredIsFinal` | packages/outbox/src/relay.ts:186-218 | A delivered row stays delivered on every continuation |
| `Outbox.ClaimsAreBounded` | packages/outbox/src/relay.ts:128-185 | Without replays and new events the remaining attempts of the pending rows bound all claims to come |
| `Outbox.NoStuckRow` | packages/outbox/src/relay.ts:128-160 | A pending row whose time has come is either claimable or swept to dead |
| `Outbox.DeadIsSpent` | packages/outbox/src/relay.ts:128-209 | On every run a row that was never replayed is dead only if it is malformed or has spent every attempt |
| `Outbox.FailureIsRetried` | packages/outbox/src/relay.ts:186-209 | A failed publish or mark makes its pending row due after the delay, and dead exactly on its last attempt |
| `Outbox.ReplayRevives` | packages/outbox/src/replay.ts:43-57 | A replayed row can be claimed at once and has all of its attempts again |
| `Outbox.LeaseExcludes` | packages/outbox/src/relay.ts:147-160 | While the lease of a claim runs nobody else can claim its row and no sweep retires it, on every run in which it is not replayed and no claim of it fails |
| `Outbox.BackoffDoubles` | packages/outbox/src/relay.ts:80-90 | The first delay is the base, each is twice the one before until the maximum, and stays there |
| `Outbox.Relay.RunOnce` | packages/outbox/src/relay.ts:128-218 | What one pass leaves in every row: claimed rows are delivered, due again after the delay with one attempt more, or dead exactly when malformed or out of attempts, whether the publish or the mark threw; the earliest due rows are claimed first; delivered, retried and dead are each counted exactly |
| `Chart.NameTellsCode` | packages/ledger/src/chart-of-accounts.ts:52-54 | The code, and for merchant accounts the merchant, can be recovered from an account's name whatever the merchant is called |
| `Chart.NamesDistinct` | packages/ledger/src/chart-of-accounts.ts:52-54 | Two accounts of the chart share a name only when they are the same |
| `EntrySignature.SignatureIsMultiset` | packages/ledger/src/service.ts:81-99 | Two lists of entries have the same signature exactly when they are equal as multisets |
| `Ledger.AccountIdsAscend` | packages/ledger/src/service.ts:227-235 | The lock order lists every account of the entries, once, in ascending order |
| `Ledger.RunsAreSound` | packages/ledger/src/service.ts:200-368 | On every run each projection is the signed sum of its entries, every transaction balances per currency, each key has one transaction and one committed hook, and reversals are sound |
| `Ledger.HistoryIsKept` | packages/ledger/src/service.ts:200-302 | Posted transactions and hooks stay, unchanged, on every continuation |
| `Ledger.RepeatReplaysOrConflicts` | packages/ledger/src/service.ts:370-436 | A repeated key changes nothing: it answers the original exactly when reason, source, reversal link and the multiset of entries agree, and a conflict otherwise |
| `Ledger.OnlyPostedChanges` | packages/ledger/src/service.ts:183-302 | Only an answer that posted changed the ledger, by that transaction and its hook |
| `Ledger.TrialBalance` | packages/ledger/src/service.ts:101-132 | On every run and in every currency the debit-normal balances sum to the credit-normal ones |
| `Ledger.MirrorUndoes` | packages/ledger/src/service.ts:563-568 | The mirror of a transaction negates its movement on every account and bucket and balances where it balanced |
| `Ledger.BalancesAreActive` | packages/ledger/src/service.ts:520-623 | Whatever is posted in between, each balance is the sum over the transactions that are neither reversals nor reversed |
| `Ledger.CoveredKeepsNonNegative` | packages/ledger/src/service.ts:337-367 | Guards that cover what a posting decreases keep every protected account at or above zero |
| `Ledger.ReversalIsCovered` | packages/ledger/src/service.ts:580-588 | The guards of a reversal, computed from account names, cover every protected account that it decreases |
| `Acceptance.PostsIff` | packages/ledger/src/service.ts:101-368 | A request is posted exactly when it is valid, its key is new, its link free, its accounts live and in its currency, every guarded account stays at or above zero in both buckets, and its hook succeeds |
| `Acceptance.AnswersAreTrue` | packages/ledger/src/service.ts:101-436 | Every answer is true: each refusal names what is so (the missing accounts, the unbalanced currencies, the bucket that would fall and to what), and a replay has the key and the fingerprint |
| `Acceptance.ReversesIff` | packages/ledger/src/service.ts:520-623 | A reversal is posted exactly when the original is not reversed, its mirror is a valid request with a new key on live accounts, and no protected account ends below zero |
| `Acceptance.OwnReversalIsKnown` | packages/ledger/src/service.ts:537-544 | A retry of one's own reversal is answered with it, or as a conflict when its source differs |
| `Service.ValidateInput` | packages/ledger/src/service.ts:101-132 | The running map of nets finds the first fault in the source's order, with the exact unbalanced currencies |
| `Service.LedgerService.CreateAccount` | packages/ledger/src/service.ts:157-181 | A new account and its zero row, or a refusal when name and currency are taken |
| `Service.LedgerService.PostTransaction` | packages/ledger/src/service.ts:183-198 | An invalid request is refused at once; otherwise the first attempt without fault answers as one posting does, the first fault that is not retryable is raised, and retries run out exactly when every allowed attempt meets a retryable fault; without an answer nothing has changed |
| `Service.LedgerService.PostOnce` | packages/ledger/src/service.ts:200-302 | One attempt has the outcome and the state of the specification: claim, replay, locks, entries, projections, guards, hook |
| `Service.LedgerService.ApplyProjectionDeltas` | packages/ledger/src/service.ts:304-368 | The updates row by row give every balance its movement and version, or stop at the first guarded account that falls below zero |
| `Service.LedgerService.Replay` | packages/ledger/src/service.ts:370-436 | Comparing signatures decides the causal fingerprint |
| `Service.LedgerService.VerifyProjection` | packages/ledger/src/service.ts:455-503 | The report gives the projection and its recomputation and tells whether every bucket is equal; from a state of any run it is a match |
| `Service.LedgerService.ReverseTransaction` | packages/ledger/src/service.ts:520-623 | Each refusal exactly for its reason, the one for an earlier reversal exactly when that has another key; otherwise the posting of the mirror with the guards found by name, which replays one's own reversal |
| `Service.LedgerService.RebuildProjection` | packages/ledger/src/service.ts:632-688 | The row is rewritten from the entries; from a state of any run there is no drift |
| `LedgerLocks.InterleavingsAreConsistent` | packages/ledger/src/service.ts:200-368 | With any number of postings, rebuilds and verifications interleaved statement by statement, committed projections equal their entries, every verification matches, no rebuild drifts, the version check never fails, no key commits twice and no transaction is reversed twice |
| `LedgerLocks.NoWaitCycle` | packages/ledger/src/service.ts:200-235 | No reachable state has a cycle of calls waiting for each other, be it on a key, on a reversal link or on an account |
| `LedgerLocks.SomeoneCanStep` | packages/ledger/src/service.ts:200-235 | While some call is unfinished, some unfinished call can execute its next statement |
| `LedgerLocks.StatementsAreBounded` | packages/ledger/src/service.ts:200-368 | However the calls are interleaved only so many steps change anything, so with SomeoneCanStep every call comes to its end |
| `LedgerLocks.CallsEndTruly` | packages/ledger/src/service.ts:200-368 | A call that can lock its accounts and is not aborted ends truly: a posting is committed or finds its key or reversal committed, a verification matches, a rebuild finds no drift |
| `Posting.PostingService.EnsureChart` | packages/ledger/src/posting.ts:104-139 | Opens the accounts and rows that lack, and returns the live account of every code, by name and currency, or fails exactly when one is missing |
| `Posting.PostingService.TwoLegged` | packages/ledger/src/posting.ts:370-401 | Refuses exactly the amounts that are not positive and a chart that lacks an account; otherwise the two legs with the guards of the chart are posted, with the answer that the faults of the database lead to |
| `Posting.PostingService.CapturePayment` | packages/ledger/src/posting.ts:232-274 | Refuses exactly negative fees, mixed currencies and fees that leave nothing, and a chart that lacks an account; otherwise posts the capture |
| `Posting.PostingService.PostReconAdjustment` | packages/ledger/src/posting.ts:193-217 | Posts the adjustment between the two platform accounts, ensured without a merchant chart |
| `Posting.TwoLegsMove` | packages/ledger/src/posting.ts:370-401 | A two-legged posting moves its two accounts by the amount, each by its own normal side, and nothing else |
| `Posting.CaptureMoves` | packages/ledger/src/posting.ts:246-264 | A capture adds the gross to clearing, the fees to their accounts and the net to the merchant, and to no other code |
| `Posting.ReconMoves` | packages/ledger/src/posting.ts:201-216 | An adjustment moves recon.differences by the signed amount and suspense by its opposite, and nothing else |
| `Posting.TwoLegsCovered` | packages/ledger/src/posting.ts:376-386 | The guard set of twoLegged covers whatever protected account the posting decreases |
| `Posting.CaptureCovered` | packages/ledger/src/posting.ts:246-273 | A capture decreases no account, so it needs no guard |
| `Posting.BooksBalanceAndStayNonNegative` | packages/ledger/src/posting.ts:193-401 | From an empty chart, on every run of captures, operations, adjustments, reversals and repairs, no account but the transitory ones is below zero and the books balance per currency |
| `Fsm.NoStatusRecurs` | packages/payments-core/src/fsm.ts:89-150 | No refund, payout or dispute is ever twice in one status |
| `Fsm.TerminalIsLast` | packages/payments-core/src/fsm.ts:178-181 | A row in a status without exits has no later one |
| `EngineOutcomes.OutcomesExclude` | packages/payments-core/src/refunds.ts:329-433 | On every run each key is posted once and at most one of the two closing postings of a refund, payout or dispute is made, the one its status names |
| `EngineOutcomes.FinalRowsStandForEver` | packages/payments-core/src/fsm.ts:170-181 | A terminal row never changes again, whatever is executed, repeated or delivered late |
| `EngineLaws.ConfirmTakesEffectIff` | packages/payments-core/src/confirmation.ts:61-91 | A confirmation takes effect exactly on an intent that was neither submitted nor canceled, and leaves it processing with one attempt |
| `EngineLaws.CancelTakesEffectIff` | packages/payments-core/src/fsm.ts:89-150 | In any reachable state a cancellation takes effect exactly before the intent is submitted |
| `EngineLaws.ApprovalTakesEffectIff` | packages/payments-core/src/confirmation.ts:239-271 | In any reachable state an approval is captured whole exactly when its attempt is pending and the fee leaves something |
| `EngineLaws.DeclineTakesEffectIff` | packages/payments-core/src/confirmation.ts:273-290 | In any reachable state a decline fails attempt and intent exactly when the attempt is pending |
| `EngineLaws.ReservationTakesEffectIff` | packages/payments-core/src/refunds.ts:243-262 | In any reachable state a refund is reserved exactly when it is new and the available balance covers it |
| `EngineLaws.SettlementTakesEffectIff` | packages/payments-core/src/refunds.ts:379-411 | In any reachable state a settlement takes effect exactly when the refund is processing or indeterminate, its amount is within what is left of the capture, and the provider's clearing covers it |
| `EngineLaws.WholeRefundIsRefunded` | packages/payments-core/src/refunds.ts:402-407 | So a covered refund of all that is left leaves its intent refunded in full |
| `EngineLaws.RejectionTakesEffectIff` | packages/payments-core/src/refunds.ts:413-433 | In any reachable state a rejection returns the reservation exactly when the refund is processing or indeterminate: its liability always covers it |
| `EngineLaws.EmissionTakesEffectIff` | packages/payments-core/src/payouts.ts:207-226 | In any reachable state a payout is emitted exactly when it is requested and the available balance covers it |
| `EngineLaws.PayoutClosesIff` | packages/payments-core/src/payouts.ts:337-381 | A payout on its way is paid exactly when the platform's cash covers it, and can always be returned |
| `EngineLaws.DisputeOpensIff` | packages/payments-core/src/disputes.ts:122-167 | In any reachable state a dispute is filed with its hold exactly when its amount is positive and available |
| `EngineLaws.WinTakesEffectIff` | packages/payments-core/src/disputes.ts:293-312 | In any reachable state a win returns the hold exactly of disputes open or under review |
| `EngineLaws.LossTakesEffectIff` | packages/payments-core/src/disputes.ts:314-332 | In any reachable state a loss takes effect exactly when moreover the provider's clearing covers it |
| `EngineLaws.DirectPostsIff` | packages/ledger/src/posting.ts:277-325 | A direct operation is posted exactly under a new name and when the account that it draws on covers it |
| `EngineBalances.BalancesFollowStatuses` | packages/payments-core/src/refunds.ts:208-433 | On every run every account holds exactly what the statuses of attempts, refunds, payouts and disputes put at stake in it, plus the direct postings |
| `EngineBalances.AvailableFollowsStatuses` | packages/ledger/src/posting.ts:277-368 | merchant.available is released less net reserve, less refunds in processing, indeterminate or succeeded, less payouts in transit, indeterminate, paid or stranded, less disputes open, under review or lost |
| `EngineBalances.CustodyOfRefundsAndDisputes` | packages/payments-core/src/disputes.ts:122-332 | refund.liability is the refunds processing or indeterminate and dispute.reserve the disputes open or under review, with any executors |
| `EngineBalances.InTransitFollowsStatuses` | packages/payments-core/src/payouts.ts:190-391 | payout.in_transit is the payouts in transit or indeterminate plus the stranded ones, on every run |
| `EngineBalances.ClearingFollowsStatuses` | packages/ledger/src/posting.ts:232-368 | provider.clearing is what was captured less succeeded refunds, lost disputes and provider settlements |
| `EngineBalances.CashFollowsStatuses` | packages/ledger/src/posting.ts:321-339 | platform.cash is what providers settled less the paid payouts |
| `EngineBalances.PendingFollowsStatuses` | packages/ledger/src/posting.ts:232-279 | merchant.pending is what was captured net of the fee less what was released |
| `EnginePayouts.InTransitCustody` | packages/payments-core/src/payouts.ts:190-391 | With one execution of each payout at a time, and any webhooks, sweeps and crashes, payout.in_transit is exactly the payouts in transit or indeterminate |
| `EnginePayouts.AvailableWithOneAtATime` | packages/payments-core/src/payouts.ts:117-137 | And merchant.available is the same formula with the payouts in transit, indeterminate or paid alone |
| `EnginePayouts.StrandsIffGivesUpLate` | packages/payments-core/src/payouts.ts:190-391 | Of all the steps of any process, one strands a payout's money exactly when it is the branch for insufficient balance and finds the payout in transit or indeterminate |
| `EnginePayouts.StrandedIffGaveUpLate` | packages/payments-core/src/payouts.ts:217-226 | On every run the money of a payout is stranded exactly when an execution gave up late on it |
| `EnginePayouts.InTransitCustodyIff` | packages/payments-core/src/payouts.ts:190-391 | On every run payout.in_transit is the payouts in transit or indeterminate of its currency exactly when no execution gave up late on one of them |
| `EnginePayouts.StrandedMeans` | packages/payments-core/src/payouts.ts:217-275 | A payout is stranded exactly when it is failed, was emitted and was never returned |
| `EnginePayouts.TwoExecutionsStrand` | packages/payments-core/src/payouts.ts:207-226 | The run of two executions that ends with a failed payout and its amount in payout.in_transit |
| `EngineCaptures.CapturesAgree` | packages/payments-core/src/confirmation.ts:37-290 | An intent is paid exactly when one attempt succeeded, exactly when the ledger holds the one capture of its attempts; then all is captured, otherwise nothing; never a second attempt |
| `EngineCaptures.PathsReachProcessing` | packages/payments-core/src/confirmation.ts:37-41 | Every confirmation path is legal step by step and ends in processing |
| `EngineRefunds.RefundedIsSettled` | packages/payments-core/src/refunds.ts:379-411 | amount_refunded is the sum of the succeeded refunds, within what was captured, and the intent is refunded exactly when it reaches it |
| `EngineRefunds.RefundsAreBounded` | packages/payments-core/src/refunds.ts:146-160 | In particular they do where no refund begins while another of its intent is indeterminate |
| `EngineRefunds.NextKeepsBoundIff` | packages/payments-core/src/refunds.ts:129-433 | Of all the steps of any process, one breaks the bound of an intent exactly when it begins a refund that leaves no room for the indeterminate ones |
| `EngineRefunds.BoundedIffRoomy` | packages/payments-core/src/refunds.ts:129-433 | On every run refunded and in flight stay within captured throughout exactly when every refund that began left that room |
| `EngineRefunds.WholeRefundKeepsBoundIff` | packages/payments-core/src/refunds.ts:157-160 | A refund of all that remains keeps the bound exactly when none of the intent is indeterminate |
| `EngineRefunds.RefundsOverclaim` | packages/payments-core/src/refunds.ts:148-160 | The run on which two refunds that exceed a sale together are both accepted |
| `Refinement.KeyTextsDistinct` | packages/payments-core/src/payouts.ts:207-211 | Different lifecycle keys have different texts |
| `Refinement.PostRefines` | packages/ledger/src/service.ts:200-302 | The ledger's tables accept, refuse for lack of balance or recognise a posting exactly as the log of the lifecycles does, and represent the longer log |
| `EngineLedger.RowsHoldBalances` | packages/ledger/src/posting.ts:370-401 | The postings of any run of the lifecycles, made on an empty ledger, are all accepted and leave every projection equal to the balance of the run |
| `EngineLedger.LifecyclesStayNonNegative` | packages/ledger/src/posting.ts:376-386 | No account is below zero on any run of the lifecycles |
| `EngineLedger.StoredAvailableFollowsStatuses` | packages/payments-core/src/payouts.ts:117-137 | The stored available balance of a merchant is the function of statuses |
| `EngineLedger.StoredWithOneAtATime` | packages/payments-core/src/payouts.ts:117-137 | With one execution of a payout at a time the stored rows of merchant.available and payout.in_transit are the plain formulas, with nothing stranded |
| `Services.RefundService.BeginIn` | packages/payments-core/src/refunds.ts:129-178 | A refund of at most the remaining amount begins, or nothing changes |
| `Services.RefundService.RecordSucceeded` | packages/payments-core/src/refunds.ts:379-411 | In any reachable state the refund is settled, with its intent, exactly when it is processing or indeterminate and covered by what is left and by clearing; otherwise nothing changes |
| `Services.RefundService.Execute` | packages/payments-core/src/refunds.ts:208-319 | In any reachable state: canceled when not funded; else reserved, and then settled if approved and covered, returned if declined or never sent, in doubt if pending or thrown; each with exactly its postings |
| `Services.RefundService.Resolve` | packages/payments-core/src/refunds.ts:329-376 | A verified resolution is applied, out of order, ignored or to be retried, by the status it finds; applied, it settles what is covered or returns the reservation |
| `Services.RefundExecutionIsRun` | packages/payments-core/src/refunds.ts:208-319 | An execution of a refund is a run of at most two steps of the state machine |
| `Services.PayoutService.BeginIn` | packages/payments-core/src/payouts.ts:117-155 | A payout is requested exactly when its amount is positive and within what is available and not committed |
| `Services.PayoutService.Execute` | packages/payments-core/src/payouts.ts:190-281 | In any reachable state and for any id: failed when not funded; else emitted, and then paid if approved and cash covers it, returned if declined or never sent, indeterminate with its money in transit if pending or thrown; each with exactly its postings |
| `Services.PayoutService.Resolve` | packages/payments-core/src/payouts.ts:291-335 | A verified resolution is applied, out of order, ignored or to be retried, by the status it finds; applied, it pays what cash covers or returns the money |
| `Services.PayoutExecutionIsRun` | packages/payments-core/src/payouts.ts:190-281 | An execution of a payout is a run in which its process starts and advances to its end |
| `Services.PayoutResolutionIsRun` | packages/payments-core/src/payouts.ts:291-335 | So is the resolution of a payout on its way |
| `Services.DisputeService.Open` | packages/payments-core/src/disputes.ts:122-167 | The hold and the row appear together, in any reachable state exactly when the amount is positive and available, or not at all |
| `Services.DisputeService.SubmitEvidence` | packages/payments-core/src/disputes.ts:217-231 | Accepted exactly for a dispute that is open or under review, which it leaves under review |
| `Services.DisputeService.Resolve` | packages/payments-core/src/disputes.ts:242-332 | A dispute open or under review is won, or lost if clearing covers it, with its posting; a closed one is out of order |
| `Services.ConfirmationService.BeginIn` | packages/payments-core/src/confirmation.ts:61-91 | The loop walks the intent to processing and adds one attempt, exactly when it was neither submitted nor canceled |
| `Services.ConfirmationService.RecordApproved` | packages/payments-core/src/confirmation.ts:239-271 | In any reachable state the attempt is captured whole exactly when it is pending and the fee leaves something; otherwise nothing changes |
| `Services.ConfirmationService.Execute` | packages/payments-core/src/confirmation.ts:94-174 | Only a submitting attempt is executed; in any reachable state it is captured, declined with its intent, submitted or in doubt, by the reply |
| `Services.ConfirmationService.Resolve` | packages/payments-core/src/confirmation.ts:185-236 | A verified resolution is applied, out of order, to be retried, or ignored when the attempt is unknown or another reference is on record; applied, it captures or declines |
| `ServiceOutcomes.UnfundedRefundIsCanceled` | packages/payments-core/src/refunds.ts:243-262 | In any reachable state, a refund without balance to reserve is canceled and nothing is posted |
| `ServiceOutcomes.DeclinedRefundRestores` | packages/payments-core/src/refunds.ts:264-314 | In any reachable state, a refund that is declined or never sent ends failed with every balance as it was |
| `ServiceOutcomes.UnfundedPayoutFails` | packages/payments-core/src/payouts.ts:217-226 | In any reachable state, a payout without balance to emit fails, posts nothing and strands nothing |
| `ServiceOutcomes.RefusedPayoutRestores` | packages/payments-core/src/payouts.ts:232-275 | In any reachable state, a payout that is refused or never sent ends failed with every balance as it was |
| `ServiceOutcomes.DoubtfulPayoutStaysInTransit` | packages/payments-core/src/payouts.ts:232-281 | In any reachable state a funded payout whose bank call throws or stays pending ends indeterminate, emitted, neither settled nor returned, with its amount moved from available to in transit |
| `Adjustments.FourEyes` | packages/reconciliation/src/adjustments.ts:153-332 | Over every race an adjustment is applied exactly when it is posted, as proposed and once; at or above the threshold its approver is not its proposer; and its case is resolved |
| `AdjustmentLedger.DifferencesAreApplied` | packages/reconciliation/src/adjustments.ts:239-293 | Over every race, made on the ledger: it holds the posting of every applied adjustment, once, and no other; the stored recon.differences is the signed sum of the applied adjustments and the stored suspense its opposite |
| `AdjustmentLedger.ApprovalIsAnswered` | packages/reconciliation/src/adjustments.ts:239-293 | In any reachable state an approval is posted exactly when the adjustment has no posting and the hook finds it proposed, is replayed when it has one, and is refused by the hook otherwise; only the first changes the ledger |
| `Adjustments.DecidedOnce` | packages/reconciliation/src/adjustments.ts:247-332 | What was applied or rejected never changes again |
| `Adjustments.ApprovalTakesEffectIff` | packages/reconciliation/src/adjustments.ts:239-293 | Over every race an approval applies, posts and resolves exactly when its hook still finds the adjustment proposed |
| `Adjustments.CaseAdjustmentService.ProposeAdjustment` | packages/reconciliation/src/adjustments.ts:153-215 | Each refusal exactly for its reason, in order; otherwise a proposal that needs a second approval from the threshold on |
| `Adjustments.CaseAdjustmentService.Approve` | packages/reconciliation/src/adjustments.ts:222-295 | Each refusal exactly for its reason, in order; otherwise the adjustment is applied, posted once as proposed and its case resolved |
| `Adjustments.CaseAdjustmentService.RejectAdjustment` | packages/reconciliation/src/adjustments.ts:298-332 | Each refusal exactly for its reason, in order; otherwise the adjustment is rejected by that person and nothing is posted |

## Left out

- RefundsAreBounded: has a condition, because the code does not count indeterminate refunds; BoundedIffRoomy is the exact one.
- InTransitCustody: has a condition, because of the run in TwoExecutionsStrand; InTransitCustodyIff is the exact one.
- PublishesAreBounded: counts publishes under claims older than the last replay apart, because StalePublishExceedsAttempts breaks the plain count; ReplayKeepsBoundIff tells when it holds.
- RowsHoldBalances: assumes that there are no more rows than UUIDs; the texts of their keys then have the 8 to 200 characters that the ledger demands.
- The inbox processor: a sibling of the relay with the same claim, lease and sweep.
- The webhook deliverer: the same claim, but without a sweep of exhausted rows.
- openFromProvider of disputes: idempotent by provider_ref only as long as a resolution keeps it, and a resolution may overwrite it.
- reverseTransaction in the lifecycles: nothing calls it there; it is proved at the level of the ledger.
- Reconciliation adjustments in the lifecycles: they touch only suspense and recon.differences, and are proved on a ledger of their own.
- Refund, dispute and attempt steps are allowed to any process at any time, which is more than the code does; only for payouts does it matter what a process has read.
- The width of BIGINT: amounts are unbounded, and the abort of an overflow is one of the aborts that any posting may meet.
- The deferred balance trigger and the hash chain of the ledger: the service has checked the balance before.
- Account identifiers: accounts are numbered in the order of their UUIDs, and a number stands for the text of one.
- createAccount with names or sides outside the chart: covered in Ledger, excluded from the runs of the catalogue.
- SHA-256 and HMAC: two requests have one hash when they have one canonical text.
- Outbox events, audit rows, failure codes, timestamps and jitter written along with each step.
- SQL text, row-level security, roles, HTTP routes, pages, metrics and command-line tools.
