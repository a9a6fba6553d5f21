# A verified model of the payments orchestrator

This project models the parts of the orchestrator that move money, and the parts that make them safe
under retries, crashes, stale workers, lost replies and reordered events:

- **The payout saga.** One payout row, the ledger's and the provider's knowledge of it, and any number of
  workers and provider-event handlers that hold snapshots of any age. The only way to change the row is the
  compare-and-set of `TransitionPayout`.
- **The refund saga** and the refundable balance of a payment.
- **The payment lifecycle**: provider inbox, status machine, versioned webhook log, and the cash-in outbox with
  its flush worker.
- **Conservation**: all accounts, payouts, payments and refunds together.
- **Idempotent creation** (reserve, call out, complete or release), in SQL and in memory.
- **Keyset pagination** over the union of V2 and V1 payments, and the in-memory listing.
- **Webhook batches**: grouping by endpoint, concurrent workers fed over a channel, and a delivery's attempts.

Protocols are state machines: `Enabled` says when an action can happen, `Next` what it does, `Legal` and `Exec`
speak of whole runs, and every safety theorem is about every legal run of any length with any number of actors.
Code that changes state in place is a class whose methods are proved against the functions the protocol uses. What
everybody else does while a call is under way is a parameter of the call: `PayoutDriver.Payouts.Process` and
`RefundDriver.Worker.Process` take, for each gap between their own steps, a schedule of the steps of other workers, of the
ledger and of the provider (and of provider events, for payouts), carry it out on the tables and the clients, and are proved to be the protocol's run in which
their steps and the others' are interleaved so, with every other payout or payment left alone. `PaymentRefinement`
proves that each transaction on the payment tables, and each batch of the balance outbox, is a step or run of the book
of the payment it concerns and of no other.

## Files

| file | what it holds |
|---|---|
| `Common.dfy`, `StringOrder.dfy` | options, errors, sums over maps; the order of texts |
| `Parties.dfy`, `Clients.dfy` | the ledger and the provider, as truth and as objects that are called |
| `PayoutLifecycle.dfy`, `PayoutSaga.dfy`, `PayoutTheorems.dfy` | statuses and the compare-and-set; the protocol and its invariant; the guarantees |
| `PayoutJournal.dfy`, `PayoutMeaning.dfy` | the row's columns told from what was heard; what the public statuses and the events mean |
| `PayoutStore.dfy`, `PayoutLeases.dfy` | the tables; what the claim's lease protects |
| `PayoutDriver.dfy`, `PayoutConvergence.dfy` | the worker; settlement within three calls |
| `RefundSaga.dfy`, `RefundDriver.dfy`, `RefundConvergence.dfy` | the refund protocol; its worker; when a refund ends and when it never does |
| `RefundMeaning.dfy` | the refund row's columns told from what was heard; what its status change means |
| `PaymentLifecycle.dfy`, `PaymentBook.dfy` | status machine and inbox; a payment with its refunds and cash-in |
| `PaymentMeaning.dfy` | status, webhooks and cash-in told in the provider's words |
| `PaymentStore.dfy`, `PaymentRefinement.dfy` | the tables; their transactions as steps of the books |
| `CashInWorker.dfy`, `Conservation.dfy` | the balance outbox worker; all accounts together |
| `IdempotentCreate.dfy`, `MemoryStore.dfy` | the reservation protocol; the in-memory store and payment creation on it |
| `Pagination.dfy` | the listing |
| `WebhookGroups.dfy`, `WebhookFlush.dfy` | grouping; one flush with concurrent workers |

## Assumptions

1. Each SQL transaction is one serializable step. Where the source uses several, the model has several.
2. The ledger deduplicates by (refType, refId): a reference that was applied replays as success without a look at
   the balance (`internal/adapters/dinacore/client.go:17-18`). A call that the client gave up on after its timeout
   (`internal/adapters/dinacore/client.go:32`) may have been applied, may never arrive, or may arrive later: all three
   are in the model.
3. The provider deduplicates by the fixed key. Its truth about a key only moves forward (`Parties.Advances`), and a
   status it answers is true when it answers (`Parties.Says`); events may be late or repeated (`Parties.Announced`), and
   an event without a payout id has been matched to the right payout by `ResolvePayoutProviderEvent`
   (`internal/adapters/postgres/payouts.go:249-279`), which decides by document and amount.
   An answer classified as a rejection may be untrue. **Only** `NeverPaidAndGivenBack` and the part of
   `RowMirrorsProvider` about failed rows assume that it is true (`Truthful`); `PaidThenRejected` is the run that breaks
   them otherwise, and `PaidAndGivenBackExactly` says from which states they can still be broken.
4. SHA-256 and the id formatting are injective, merchant ids contain no `:` (`IdempotentCreate.ColonsCollide` shows
   why), and cursors decode to what was encoded. Cursor texts and digests appear as the values they stand for.
5. At most one worker at a time handles a given `pending_debit` row (`Exclusive`), and no debit reaches the ledger after
   the worker that sent it gave up (`Prompt`). **Only** the two `Settlement` lemmas assume this.
   `SettledExactlyWithoutStrandingStep` gives, for payouts and for refunds, the three steps that break settlement, and
   holds of all runs; `ExclusionIsNeeded` and `LateDebitStrands` are runs that take them. The source does not
   enforce the assumption: the creating request processes the row without a lease while the row is claimable at once,
   and a lease lasts one minute. Claims alone keep to it: `PendingDebitHandedOutOnce`.

Amounts are integers in minor units.

## What the proofs show about the code

- A payout or refund can end `failed` with its debit applied and nobody left to give it back: when "insufficient
  balance" is committed after somebody else's debit, when a debit is sent from a snapshot older than that verdict, or
  when a debit that timed out reaches the ledger after it. These three steps are the only ones, and the missing money
  is exactly what such payouts and refunds hold (`Conservation.SettledBalance`).
- A create call answered 400, 401, 403, 404, 409 or 422 sends the payout to compensation for good. When an earlier
  call was accepted and its reply lost, such an answer gives a paid payout back.
- A payout that the provider has already reversed when it first gives a final answer is announced to the merchant as
  confirmed, without a confirmation date, and then as reversed.
- A key whose holder crashed, or never learned that it holds the key, stays in progress for ever: nothing expires it, and
  every later request with it is refused.
- The public failure object of a payout appears exactly when it failed without having been with the provider: a
  provider's rejection text is erased by the compensation transition that follows it.
- A claim's lease does not survive a transition: every transition makes its row due at once, so the same row can be
  handed to a second worker while the first is still at it. Only as long as a row is `pending_debit` do the claims
  within one lease hand it out once.
- Refunds have no branch for a final rejection: a refused refund whose queries are not answered stays `pending_provider`
  with the money held, however often it is sent. An open refund that the provider cancelled or reversed never ends, unless
  a worker that was told "confirmed" before the reversal still commits that.
- `failed` and `cancelled` events make payments depend on the order of events; the exact condition is proved.
- A payment becomes `refunded` without a new version and without a webhook; its log ends at `confirmed`.
- Payments of zero or negative amount are never `refunded` and never refundable.
- The one-hour bound of the backoff is never reached: the longest wait is 2560 seconds.
- A delivery's UPDATE names only the id: a request whose claim was still open when the row was delivered turns it back to
  pending if it fails later with attempts left, and nothing else does.
- Payments are skipped in a listing exactly when a page boundary falls between two payments with one creation date and
  id, which only a V1 and a V2 payment can share.
- The in-memory store skips the binding check, keeps merchant and provider event ids in one map, does not ask whether
  a key is still pending when it completes it, ignores cursors and hands out none.
- The repository's README says (lines 85-86) that native V2 refunds are unsupported; the code implements them, and the
  model follows the code.

## Model

| member | source | states |
|---|---|---|
| PayoutSaga.StepInv | internal/app/payouts.go:75-159 | the invariant relating row, history, webhook log, ledger, provider and every in-flight snapshot survives every step: claim, debit, create, lookup, credit, compare-and-set, crash, provider move, provider event |
| PayoutTheorems.NeverPaidAndGivenBack | internal/app/payouts.go:102-138 | in every run whose rejections are true: a release implies a debit and a final refusal, failure, cancellation or reversal at the provider; a payout paid there is debited and not released |
| PayoutTheorems.RowMirrorsProvider | internal/app/payouts.go:140-159 | confirmed, cancelled and reversed rows mirror the provider's truth in every run, failed ones where rejections are true |
| PayoutTheorems.DebitBeforeCreate | internal/app/payouts.go:87-103 | every create call, from however old a snapshot, comes after the debit was applied |
| PayoutTheorems.ResubmissionExactly | internal/app/payouts.go:102-125 | from any reachable state, some run sends the provider the payout once more if and only if the row has not left pending_provider or a snapshot from then is in somebody's hands |
| PayoutTheorems.PaidUnderAnOldSnapshot | internal/app/payouts.go:103-119 | a crash can hide a paid payout behind pending_provider, and the next worker submits it again |
| PayoutTheorems.PaidThenRejected | internal/adapters/httpclient/clients.go:219-226 | a whole run that ends paid and given back: the accepted create whose reply was lost is answered with a rejection the second time |
| PayoutTheorems.PaidAndGivenBackExactly | internal/app/payouts.go:104-110 | from any reachable state, with true rejections from now on, a payout can come to be paid and given back if and only if the provider has not ended without paying and a rejection verdict was or is about to be committed |
| PayoutTheorems.MisledExactly | internal/adapters/httpclient/clients.go:219-226 | the ghost flag that excuses the invariant is set exactly by a create call answered with an untrue rejection |
| PayoutTheorems.Settlement | internal/app/payouts.go:87-138 | without two debitors and without a late debit: an ended payout is debited exactly if released, one with the provider or confirmed is debited and not released, and balance_debited agrees with the ledger |
| PayoutTheorems.SettledExactlyWithoutStrandingStep | internal/app/payouts.go:87-101 | over all runs: a payout is settled if and only if no step committed "insufficient balance" after a debit, debited from a snapshot older than that verdict, or let a timed-out debit arrive after it |
| PayoutTheorems.HowAPayoutStrands | internal/app/payouts.go:91-101 | a step strands a payout exactly if it is one of these three; nothing frees it again |
| PayoutTheorems.ExclusionIsNeeded | internal/app/payouts.go:53-101 | the run with two workers and a top-up that ends failed and debited |
| PayoutTheorems.LateDebitStrands | internal/adapters/dinacore/client.go:32 | a run of a single worker that ends so: the debit times out, the next attempt is told the balance is short, the first debit arrives |
| PayoutTheorems.FailureShownIffNeverDebited | internal/adapters/postgres/payouts.go:95-97 | in every run the public failure object is shown if and only if the payout failed without having been with the provider, hence, unless stranded, without having been debited |
| PayoutTheorems.ProgressAndDates | internal/adapters/postgres/payouts.go:181 | at most six status changes in any run, version = 1 + commits, only processing repeats, and each end date is set exactly when the row has that end |
| PayoutTheorems.HistoryOnlyExtends | internal/adapters/postgres/payouts.go:181 | histories only grow and a status that was left is never taken again |
| PayoutTheorems.WebhooksTellTheStory | internal/adapters/postgres/payouts.go:100-115 | replaying the log gives the current public status, the log is one of the five public lives, is the whole public history, and no event id repeats |
| PayoutMeaning.ToldByDates | internal/adapters/postgres/payouts.go:100-115 | in every run the last webhook says failed, cancelled or reversed exactly when the row carries that end's date, and confirmed exactly while the row is confirmed or waits to be reversed |
| PayoutMeaning.ToldTruth | internal/adapters/postgres/payouts.go:192-199 | confirmed, cancelled, reversed and failed are only told when the provider's truth, the debit and the release are what the word says |
| PayoutMeaning.ToldConfirmedUndatedExactly | internal/adapters/postgres/payouts.go:104-105 | "confirmed" is told without a confirmation date if and only if the row waits to be reversed and was never confirmed |
| PayoutMeaning.ToldConfirmedUndated | internal/app/payouts.go:149-150 | the run in which that happens |
| PayoutMeaning.EventMoves | internal/adapters/postgres/payouts.go:221-239 | an announced event on a row that nobody moves meanwhile moves it as the word and the status say |
| PayoutMeaning.ReversalIsCompensated | internal/adapters/postgres/payouts.go:290-297 | from every reachable state with a confirmed row and an announced reversal, a legal run of event, claim and release ends reversed and given back |
| PayoutLifecycle.EventTableExactly | internal/adapters/postgres/payouts.go:281-302 | the table for events is the table of all moves without standing still, without provider_unknown and with a reversal from confirmed only |
| PayoutLifecycle.EventMovesExactly | internal/adapters/postgres/payouts.go:221-234 | the table and the status switch together move a row exactly as the provider's word and the status say |
| PayoutJournal.RowIsJournal | internal/app/payouts.go:85-159 | in every run the provider id, reference, status, amount, error text and end dates are those of a journal of what the committing workers and events were last told, each text in its own column, empty texts changing nothing |
| PayoutJournal.ProviderIdWasReported | internal/app/payouts.go:152-158 | the row's provider id is one that an answer or event of the run carried |
| PayoutJournal.LastAnswerBinds | internal/adapters/postgres/payouts.go:217 | once a word with a provider id is committed, events with that id pass the binding test and events with another do not |
| PayoutStore.PickedExactly | internal/adapters/postgres/payouts.go:143-144 | a row is claimed if and only if it is due and fewer than the limit of due rows are older |
| PayoutStore.PickExact | internal/adapters/postgres/payouts.go:143-158 | a claim takes only due rows, each once, at most the limit, and all of them if it is not full |
| PayoutLeases.HandedOutAgainExactly | internal/adapters/postgres/payouts.go:144-181 | over any transitions, claims and new payouts within a lease: a claimed row is handed out again if and only if a transition of it committed since it was last claimed, it is still claimable, and fewer than the limit of due rows are older |
| PayoutLeases.PendingDebitHandedOutOnce | internal/adapters/postgres/payouts.go:144-181 | within a lease, whoever is handed a claimed row again finds it past pending_debit |
| PayoutLeases.DueExactly | internal/adapters/postgres/payouts.go:181 | within a lease a row is due exactly if it is claimable and was transitioned since its last claim |
| PayoutLeases.ClaimableExactlyUnsettled | internal/adapters/postgres/payouts.go:144 | a claim selects exactly the statuses that still need a call |
| PayoutLeases.LeaseRunsOut | internal/adapters/postgres/payouts.go:144 | a claimed row that nobody moves is due again from a minute on, exactly if it is not settled |
| PayoutStore.Store.TransitionPayout | internal/adapters/postgres/payouts.go:167-201 | the compare-and-set with its webhook: new row, history and due time; a miss changes nothing |
| PayoutStore.TransitionIsAStep | internal/adapters/postgres/payouts.go:181 | and that is the transition step of the lease theorems |
| PayoutStore.Store.ClaimPayouts | internal/adapters/postgres/payouts.go:143-166 | leases exactly the picked rows and returns their current statuses in order |
| PayoutStore.Store.ApplyPayoutProviderEvent | internal/adapters/postgres/payouts.go:203-247 | duplicate, unknown payout, wrong binding, forbidden move, lost race and success, each with its effect on row and inbox; an error leaves the inbox as it was |
| PayoutDriver.Payouts.Process | internal/app/payouts.go:85-139 | from any snapshot, with any answers and any interference between its steps, the call is the interleaved schedule of the protocol, and the row shows the journal of it; no other payout is touched |
| PayoutStore.BeatenEventConflicts | internal/adapters/postgres/payouts.go:239-243 | an event that is beaten to the row by another move is refused |
| PayoutDriver.Payouts.Interfere | internal/app/payouts.go:85-159 | any schedule of others, carried out on tables, ledger and provider, is that schedule of the protocol |
| PayoutDriver.Interleaved | internal/app/payouts.go:85-139 | effect, others' steps and compare-and-set come to the commit of the worker's verdict on whatever the others left |
| PayoutDriver.OthersLeave | internal/app/payouts.go:85-139 | nobody else's steps touch what a worker is about to commit |
| PayoutDriver.Payouts.ApplyProvider | internal/app/payouts.go:140-159 | the provider's answer becomes, after the others' steps, the compare-and-set to the status it asks for; a row that takes it has each of the answer's texts in its own column |
| PayoutDriver.Payouts.ProcessDebit | internal/app/payouts.go:87-101 | debit, then pending_provider or failed, or nothing when the ledger did not answer |
| PayoutDriver.Payouts.ProcessCreate | internal/app/payouts.go:102-120 | create, then the answer, the rejection branch, or a query |
| PayoutDriver.Payouts.AskAfterCreate | internal/app/payouts.go:111-120 | an ambiguous create is queried before anything else, and becomes provider_unknown |
| PayoutDriver.Payouts.ProcessLookup | internal/app/payouts.go:121-125 | provider_unknown and processing only ask |
| PayoutDriver.Payouts.ProcessCompensation | internal/app/payouts.go:126-138 | release, then the end that belongs to the compensation status |
| PayoutConvergence.Convergence | internal/app/payouts.go:85-159 | from any state at most three calls on fresh snapshots with conclusive answers settle the payout |
| PayoutConvergence.CallOnSettled | internal/app/payouts.go:85-139 | a further call on a settled payout changes nothing at all |
| PayoutConvergence.SettlingRunExists | internal/app/payouts.go:85-139 | from every reachable state, after at most one move of the provider, a chain of such calls exists and settles the payout |
| RefundSaga.StepInv | internal/app/refunds.go:102-153 | the refund invariant survives every step |
| RefundSaga.SafeByInv | internal/app/refunds.go:119-139 | no refund is both paid out and given back; a succeeded one was paid |
| RefundSaga.OneStatusChange | internal/adapters/postgres/refunds.go:171-195 | in every run the log is the creation and, once ended, exactly one status change from pending; completion date and version agree |
| RefundMeaning.RowIsJournal | internal/adapters/postgres/refunds.go:171 | in every run provider id, provider status, error and completion date are those of a journal of what the committing workers were last told |
| RefundMeaning.ToldTruth | internal/adapters/postgres/refunds.go:188-195 | "succeeded" is told exactly for a refund that was paid out and is held, "failed" exactly for one that was given back or failed before it was sent, "pending" never |
| RefundSaga.Settlement | internal/app/refunds.go:104-138 | in every run without two debitors and without a late debit: failed is debited exactly if released, succeeded and pending are debited only |
| RefundSaga.SettledExactlyWithoutStrandingStep | internal/app/refunds.go:104-118 | over all runs: settled if and only if none of the three stranding steps was taken |
| RefundSaga.HowARefundStrands | internal/app/refunds.go:104-118 | a step strands a refund exactly if it is one of the three |
| RefundSaga.ExclusionIsNeeded | internal/app/refunds.go:43-45 | the run with two workers and a top-up |
| RefundConvergence.EndsExactlyIfHeard | internal/app/refunds.go:119-133 | repeated fresh calls with an answering ledger and a provider that has come to its truth end a refund if and only if that truth is paid, refused or failed and a call hears it, with one more call for the release |
| RefundConvergence.Convergence | internal/app/refunds.go:102-140 | three calls that hear a decisive answer end a refund from anywhere |
| RefundConvergence.EitherCallExists | internal/app/refunds.go:102-140 | at every point the next call can hear or not, so both sides speak of real runs |
| RefundConvergence.CallOnEnded | internal/app/refunds.go:102-140 | a further call on an ended refund changes nothing at all |
| RefundConvergence.GoneBackNeverEndsExactly | internal/app/refunds.go:141-147 | once the provider has cancelled or reversed an open refund, some run ends it if and only if a worker told "confirmed" before is still about to commit that; the money stays held |
| RefundConvergence.UnheardStaysPut | internal/app/refunds.go:119-133 | in every run in which no create or query is answered, rejections included, the row stays as it is with the money held |
| RefundDriver.Worker.Process | internal/app/refunds.go:102-140 | from any snapshot, with any answers and any interference by workers of the payment's refunds, the call is the interleaved run of the payment's book, closing of the payment included; nothing else is touched |
| RefundDriver.Worker.Interfere | internal/app/refunds.go:102-153 | any run of others on the payment's refunds, carried out on the tables, is that run of the book |
| RefundDriver.Interleaved | internal/app/refunds.go:102-140 | effect, others' steps and compare-and-set make one run of the book |
| RefundDriver.CasFollows | internal/adapters/postgres/refunds.go:171-187 | a transition on the tables keeps tables, book and outside world together |
| RefundDriver.Worker.ApplyProvider | internal/app/refunds.go:141-153 | the answer becomes, after the others' steps, the compare-and-set to succeeded, pending_compensation or pending, with the closing of the payment |
| PaymentLifecycle.InboxIsTransparent | internal/adapters/postgres/store.go:124-157 | dropping duplicates by event id never changes the final status |
| PaymentLifecycle.EventsEndInTheMaximum | internal/core/lifecycle.go:22-38 | created, pending, expired and confirmed events in any order and number end in the greatest status |
| PaymentLifecycle.ConfluentExactlyWithoutRivals | internal/core/lifecycle.go:3-38 | for events of every kind: order and repetition never matter if and only if no failed or cancelled event meets a different decisive one |
| PaymentLifecycle.DeliverAllOk | internal/adapters/postgres/store.go:118-184 | through any events a payment changes at most three times, with webhook versions 1, 2, 3, ... chained by previousStatus |
| PaymentMeaning.LogIsWords | internal/adapters/postgres/store.go:145-172 | every status change in the log was caused by an event of the payment's own binding with a word for that status |
| PaymentMeaning.StatusWasSaid | internal/core/lifecycle.go:3-20 | a payment is pending, confirmed, failed, cancelled or expired, and has a cash-in row, only if the provider said so about it |
| PaymentMeaning.WordsDecide | internal/core/lifecycle.go:3-38 | among created, pending, expired and confirmed: confirmed if and only if something said so, else expired if something said so, else pending, else started |
| PaymentMeaning.CreditWasConfirmed | internal/adapters/postgres/store.go:145-170 | in every run with refunds, flushers and crashes, a merchant is credited or a refund opened only if the provider said "confirmed" about the payment |
| PaymentStore.Store.ApplyProviderEvent | internal/adapters/postgres/store.go:118-184 | the method is the inbox function; duplicates and errors leave payments and inbox as they were; a change has a word that means it, and only "confirmed" writes a cash-in row |
| PaymentStore.Store.Add | internal/adapters/postgres/refunds.go:52 | the loop computes the sum over a payment's refunds that count |
| PaymentStore.Store.CreateRefund | internal/adapters/postgres/refunds.go:16-69 | only for a payment of the named merchant, or of the account if none is named: not found, replay, conflict, not refundable or no room, and insertion, each exactly when |
| PaymentStore.Store.TransitionRefund | internal/adapters/postgres/refunds.go:159-197 | the compare-and-set, and the payment closed exactly when the succeeded refunds reach its amount |
| PaymentStore.SumsAgree | internal/adapters/postgres/refunds.go:52-54 | the sums the tables compute are those of the cap and closure theorems |
| PaymentRefinement.EventIsAStep | internal/adapters/postgres/store.go:118-184 | the inbox transaction is the book's event step, or none for a duplicate |
| PaymentRefinement.OpenIsAStep | internal/adapters/postgres/refunds.go:48-60 | what CreateRefund accepts the book accepts, and the insertion is its step |
| PaymentRefinement.TransitionIsAStep | internal/adapters/postgres/refunds.go:171-187 | the refund transaction is the book's step, closing of the payment included |
| PaymentRefinement.TransitionElsewhere | internal/adapters/postgres/refunds.go:171-187 | and moves no other payment's book |
| PaymentRefinement.TablesAreCapped | internal/adapters/postgres/refunds.go:52-187 | cap and exact closure as sums over the refunds table |
| PaymentRefinement.BatchIsARun | internal/adapters/dinacore/outbox.go:60-66 | a flushed batch is a claim-credit-mark run of each book in it and leaves the others |
| PaymentBook.StepInv | internal/adapters/postgres/refunds.go:16-197 | events, flushers, new refunds and refund steps keep the cap, the closure and the cash-in facts |
| PaymentBook.CapAndClosure | internal/adapters/postgres/refunds.go:48-60 | in every run non-failed refunds never exceed the payment; refunded if and only if positive and fully returned; then no refund can be opened |
| PaymentBook.CashInExactlyOnce | internal/adapters/postgres/store.go:165-170 | in every run a cash-in row exists exactly for confirmed or refunded payments, sent implies credited, credited implies confirmed |
| PaymentBook.RefundsSafe | internal/app/refunds.go:102-140 | in every run of a payment: none of its refunds is both paid out and given back, and when it is refunded each of them has ended |
| PaymentBook.RefundsSettledExactly | internal/app/refunds.go:104-118 | in every run of a payment: all its refunds are settled if and only if no step stranded one |
| CashInWorker.FlushSettles | internal/adapters/dinacore/outbox.go:60-66 | after a flush every row of the batch is sent, or has one attempt more and is due after the wait for the attempts before; every other row is as it was |
| CashInWorker.FlushedOnce | internal/adapters/dinacore/outbox.go:60-66 | a batch marks or backs off each of its rows once and touches no other |
| CashInWorker.CreditedOnce | internal/adapters/dinacore/outbox.go:60-66 | the balance grows by exactly the amounts of references credited for the first time; sent rows were credited |
| CashInWorker.BackoffDoublesBelowTheHour | internal/adapters/dinacore/outbox.go:62 | waits double up to 2560 seconds and stay there, below the bound |
| CashInWorker.Worker.Flush | internal/adapters/dinacore/outbox.go:60-66 | the loop is that function of rows, credited references and balance |
| CashInWorker.Worker.FlushRow | internal/adapters/dinacore/outbox.go:61-65 | credit, then mark sent, or count the attempt and be due again after the wait for the attempts before |
| CashInWorker.Worker.CreditBalance | internal/adapters/dinacore/client.go:39-41 | a reference is credited once and acknowledged again |
| Conservation.MoneyIsConserved | internal/app/payouts.go:85-139 | in every run every balance is its start plus credited cash-ins minus refunds and payouts debited and not released |
| Conservation.SettledBalance | internal/app/refunds.go:102-140 | in every run that leaves nothing pending: each balance is start plus confirmed or refunded payments, minus succeeded refunds and confirmed payouts, minus exactly what stranded payouts and refunds hold |
| Conservation.NothingMissingExactly | internal/app/payouts.go:87-101 | something is stranded in a run if and only if it took a stranding step; otherwise nothing is missing in any account |
| IdempotentCreate.StepInv | internal/adapters/postgres/store.go:25-88 | reservation, lookup, failure, commit, release, crash and lost replies keep the invariant |
| IdempotentCreate.MutualExclusion | internal/adapters/postgres/store.go:25-34 | at most one caller per merchant and key is between begin and complete or release |
| IdempotentCreate.CompleteIffCreated | internal/adapters/postgres/store.go:49-83 | a key is complete if and only if its resource exists, made from the same request |
| IdempotentCreate.CompleteForever | internal/adapters/postgres/store.go:85-88 | a completed key is never released, not after a lost commit reply either |
| IdempotentCreate.SuccessesAgree | internal/adapters/postgres/payouts.go:12-71 | all successes with a key name one resource and one request, and one caller created it |
| IdempotentCreate.ReplayOrConflict | internal/adapters/postgres/store.go:35-46 | on a complete key: replay if and only if the request is the same, conflict if and only if not |
| IdempotentCreate.PendingAnswers | internal/adapters/postgres/store.go:39-44 | on a pending key: conflict if and only if the request differs, in progress if and only if it does not |
| IdempotentCreate.CommitCreates | internal/adapters/postgres/store.go:49-83 | a holder that commits has created the resource from its own request |
| IdempotentCreate.ReleaseFrees | internal/app/payments.go:46-50 | after a failure and a release that arrives, the next caller holds the key |
| IdempotentCreate.FreedExactly | internal/adapters/postgres/store.go:85-88 | a key is freed by such a release of a pending key and by nothing else |
| IdempotentCreate.PendingEndsExactly | internal/adapters/postgres/store.go:25-88 | a pending key can still be completed or freed if and only if a caller is at work on it |
| IdempotentCreate.AbandonedForever | internal/adapters/postgres/store.go:25-88 | otherwise it stays pending in every run |
| IdempotentCreate.LostReservation | internal/app/payments.go:42-44 | a reservation whose reply is lost leaves such a key |
| IdempotentCreate.PreimageInjective | internal/app/payments.go:41-42 | without colons in merchant ids, different merchant and key pairs give different texts |
| IdempotentCreate.ColonsCollide | internal/adapters/memory/store.go:56 | with a colon they collide |
| MemoryStore.ScopesDiffer | internal/adapters/memory/store.go:56 | without colons in merchant ids no two merchants share a reservation |
| MemoryStore.Store.BeginCreate | internal/adapters/memory/store.go:53-68 | reserve, conflict, in progress or replay |
| MemoryStore.Store.CompleteCreate | internal/adapters/memory/store.go:70-83 | conflict, or payment, event and key together |
| MemoryStore.Store.ReleaseCreate | internal/adapters/memory/store.go:85-93 | only a pending key is given up |
| MemoryStore.Store.ApplyProviderEvent | internal/adapters/memory/store.go:105-127 | the same status machine; an error records nothing |
| MemoryStore.Payments.Create | internal/app/payments.go:28-110 | a failed creation leaves the store as it was, a successful one completes the key with its payment, a taken key is answered without touching anything |
| Pagination.List | internal/adapters/postgres/legacy_payments.go:30-84 | the loops compute the page: one row more is fetched, cut off, and turned into a cursor |
| Pagination.MatchingExact | internal/adapters/postgres/legacy_payments.go:126-135 | the query returns exactly the visible rows past the cursor, each as often as stored, descending, strictly if no two visible ones share their key |
| Pagination.PageExact | internal/adapters/postgres/legacy_payments.go:74-82 | a page is the top of what lies past the cursor; what it leaves out lies past the next one |
| Pagination.PageIsPlain | internal/adapters/postgres/legacy_payments.go:126-135 | a page in plain terms: the caller's own rows, newest first and by descending id, past the cursor, as many as asked for or fifty |
| StringOrder.LessExactly | internal/adapters/postgres/legacy_payments.go:135 | ids are compared at the first place where they differ, a text after its beginnings |
| Pagination.NothingSkippedOrRepeated | internal/adapters/postgres/legacy_payments.go:134-135 | with rows inserted between pages and distinct keys: strictly descending, every row present at the start listed, nothing invisible |
| Pagination.CompleteExactlyWithoutSplitTies | internal/adapters/postgres/legacy_payments.go:74-135 | the walk over an unchanging table ends, and lists every visible payment exactly once in descending order if and only if no page boundary falls between two payments with one date and id |
| Pagination.CompleteForEveryPageSizeExactly | internal/adapters/postgres/legacy_payments.go:134-135 | it does so for every page size if and only if no two visible payments share date and id |
| Pagination.ChaseExactly | internal/adapters/postgres/legacy_payments.go:74-82 | otherwise rows are lost |
| Pagination.FollowChases | internal/adapters/postgres/legacy_payments.go:30-84 | following the cursors is cutting pages off the listing |
| Pagination.EqualKeysAreSkipped | internal/adapters/postgres/legacy_payments.go:126-135 | the two-row table whose V1 payment is never shown |
| Pagination.ListInMemory | internal/adapters/memory/store.go:16-40 | the in-memory listing is the first SQL page in whatever order the map is walked, with no cursor |
| WebhookGroups.ByWebhook | internal/adapters/webhooks/outbox.go:116-123 | the first loop: deliveries by webhook in batch order, ids without duplicates |
| WebhookGroups.GroupByWebhook | internal/adapters/webhooks/outbox.go:115-132 | one group per webhook, ids strictly ascending, each group oldest first and stable |
| WebhookGroups.GroupingUnique | internal/adapters/webhooks/outbox.go:124-131 | that promise leaves exactly one result |
| WebhookGroups.GroupsPartition | internal/adapters/webhooks/outbox.go:115-132 | the groups hold every delivery as often as the batch does |
| WebhookFlush.StepInv | internal/adapters/webhooks/outbox.go:87-112 | taking a group, a request, finishing and cancelling keep the dispatch invariant |
| WebhookFlush.OrderedDelivery | internal/adapters/webhooks/outbox.go:86-112 | at every moment of any schedule an endpoint was sent an initial part of its group by one worker, and only the last request may have failed; complete flushes stop only at the end or at a failure |
| WebhookFlush.ScheduleDoesNotMatter | internal/adapters/webhooks/outbox.go:86-112 | complete flushes with any numbers of workers leave the same rows when the endpoints answer the same |
| WebhookFlush.FlushOutcome | internal/adapters/webhooks/outbox.go:86-160 | a complete flush requested a row exactly if all older ones of its webhook were accepted; then it is delivered exactly if accepted, dead if refused for the eighth time, with one attempt more; else it is as it was |
| WebhookFlush.FlushLeavesOthers | internal/adapters/webhooks/outbox.go:86-160 | rows outside the batch are left alone |
| WebhookFlush.CancelledTakesNothing | internal/adapters/webhooks/outbox.go:102-110 | after a cancellation no further group is taken |
| WebhookFlush.NeverStuck | internal/adapters/webhooks/outbox.go:89-112 | until complete or cancelled some worker can move |
| WebhookFlush.FlushEnds | internal/adapters/webhooks/outbox.go:89-112 | every run of a flush is bounded |
| WebhookFlush.Outbox.Deliver | internal/adapters/webhooks/outbox.go:133-160 | the row after a request: delivered exactly if answered, dead exactly if refused for the eighth time, one attempt more; no other row changes |
| WebhookFlush.Outbox.WorkGroup | internal/adapters/webhooks/outbox.go:93-98 | the worker's loop makes exactly the requests up to the first refusal |
| WebhookFlush.WorkIsOver | internal/adapters/webhooks/outbox.go:93-98 | what a lone worker sends is an initial part of the group, in order, stopped only by its end or a refusal |
| WebhookFlush.EightAttempts | internal/adapters/webhooks/outbox.go:150-160 | a row that one worker at a time has: delivered by the first accepted request among eight, dead after eight refusals |
| WebhookFlush.ReopenedExactly | internal/adapters/webhooks/outbox.go:150-158 | with any overlapping workers: a delivered or dead row becomes pending again if and only if a request whose claim was open at that moment fails later with attempts left |
| WebhookFlush.DeliveredWithOpenClaim | internal/adapters/webhooks/outbox.go:60-67 | such open claims are real |

## Left out

- HTTP server, routing, JSON, headers, tracing, metrics, authentication, merchant resolution, input trimming and display data: plumbing.
- HTTP clients and the legacy V1 refund adapter: replaced by outcomes (answered, rejected, no answer).
- SHA-256, UUID formatting, base64: replaced by the values they stand for, assumed injective.
- PostgreSQL isolation anomalies: for example two refunds that succeed concurrently could each miss the other in the sum that closes the payment.
- Wall-clock leases, tickers and goroutine scheduling: claiming again is always possible in the protocols; the lease appears only in the stores.
- Webhook fan-out over several registrations: each resource has the log one registration would see.
- The inbox table shared by payments and payouts: each store has its own set of event ids.
- A crash inside ApplyPayoutProviderEvent between the inbox insert and the transition: the event stays recorded and is never applied.
- A reversal that is announced before the confirmation is recorded and ignored, as in the source; no claim is made that it is compensated later.
- ResolvePayoutProviderEvent: its choice of a payout by document and amount is assumed to be right (assumption 3).
- GetPayout, ListPayouts (its query never uses the cursor it returns), GetRefund, ListRefunds: read paths.
- The `runBatch` loops: each claimed item is one independent call of `Process`; ClaimRefunds has the shape of ClaimPayouts.
- The order of webhooks across flushes: later batches are claimed by next_attempt_at, so only one flush is ordered.
- BeginPayout, CompletePayout and ReleasePayout as a store of their own: they are the steps of the protocol in `IdempotentCreate`, which payments and payouts share.
- Descriptive columns of refunds and payouts (reason, metadata, remitter, pricing): never read by the logic.
- MemoryStore.Payments.Create: models validation, merchant resolution and JSON errors as failing before or after the reservation, not one by one.
- WebhookGroups.GroupByWebhook: sorts on values; the library sort's in-place behaviour on the slice is not modelled.
- Pagination.MatchingExact: compares ids byte by byte; a database collation that orders texts differently is not modelled. Rows with one key come in a fixed order, where SQL leaves it open; the condition for a complete listing does not depend on it.
- RefundDriver.Worker.Process: the interference is by workers of the payment's refunds; events, new refunds and cash-in flushes in between are covered one transaction at a time by `PaymentRefinement`.
- Pagination.CompleteExactlyWithoutSplitTies: assumes that no listed payment has the zero time or an empty id, which the columns exclude.
