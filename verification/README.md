# NovaPay: a verified model

NovaPay moves money between wallets through a ledger, a transfer service, an FX quote service, a payroll service
and an audit log.  Each service keeps its state in database rows and treats one transaction as one atomic step; calls
between services may be lost, answered late or answered twice, and any process may stop between two steps.  This
project models those machines, runs them together, and proves what they keep.

`dafny verify dfyconfig.toml` checks everything.

## How it is laid out

- `Ledger.dfy` holds the tables, the validation and the commit of the posting engine as functions;
  `LedgerInvariant.dfy` what every ledger run keeps; `LedgerGrowth.dfy` how the journal may grow; `LedgerStore.dfy`
  the engine as it is written, with its loops, maps, tables and retries, proved against those functions;
  `LedgerAnswers.dfy` what an answer means: which posting it names, what a hash stands for, what is refused and why.
- `Effects.dfy` says what one accepted command does to the balances.
- `Fx.dfy` and `QuoteBook.dfy` do the same for quotes.
- `Transfers.dfy` has the rows of a transfer and the transactions on them as functions, with the CHECKs and triggers as
  predicates; `TransferStore.dfy` the same transactions on tables that are updated in place.
- `World.dfy` is the transfer lifecycle as a state machine over the ledger and the quotes: any number of activations,
  posts and consumptions in flight, crashes, lost answers, other users of the ledger, and time.  `WorldInvariant.dfy`
  and `WorldRuns.dfy` prove its invariant over all runs, `WorldTheorems.dfy` draws the consequences.
- `RetryClaims.dfy` proves that at most one retry claims a version; `WalletChecks.dfy` that nothing is sent or posted
  without an approving answer of the Account service; `Verdicts.dfy` what every other answer leads to and what
  callers are told.
- `LooseEnds.dfy` says exactly when a FAILED transfer can still be posted, with `Payable.dfy` saying what the ledger
  can come to accept; `Quiet.dfy` and `QuietRuns.dfy` prove that it never is under a discipline on retries;
  `Scenario.dfy`, `LateCommit.dfy` and `QuoteRace.dfy` exhibit runs in which it is; `Progress.dfy` proves that a
  forced reconcile settles what it can and exactly that.
- `Payroll.dfy` composes jobs, items and workers with the whole transfer machine; `PayrollInvariant.dfy` and
  `PayrollTheorems.dfy` follow the money from item to journal; `ExpiredKey.dfy` shows what the 24-hour window does;
  `PayrollWorker.dfy` is the worker's loop, `PayrollSubmit.dfy` the submission, `EmployerLease.dfy` the lease.
- `HistoryPages.dfy` and `HistoryRebuild.dfy` treat the history: pagination and rebuild.  `HistoryTruth.dfy` holds
  its rows against the journal and the quotes.
- `AuditJson.dfy` and `AuditChain.dfy` treat the audit log: canonical metadata and the hash chain.
- `Order.dfy` lists finite sets in ascending order; `Common.dfy` has the result shapes and the bound of the columns.
- `Locking.dfy` treats the locks of concurrent posters, `Semver.dfy` the version comparison of the release check.

## Conventions

- Amounts are integers in units of 10^-8 and rates in units of 10^-12.  The 28 digits of their columns are
  an explicit bound.  The validator's `isPositive` is a test of sign, so zero passes it and is stopped by the CHECKs.
- A hash is the value that is hashed, so it is injective; sorted lists that are hashed are multisets.
- Identifiers of accounts and postings are their positions; other identifiers, currencies and keys are numbers.  A new
  transfer id is assumed unused as a ledger reference, as a random identifier is.
- A throw inside a transaction undoes what the transaction wrote.
- `Next` of every machine is total: an event that is not enabled changes nothing, so a run is any sequence of events.
- Only the transfer service posts under transfer ids or posts FX transfers, and only the payroll service sends the keys
  it derives from job and item.

## What turned out false, and the exact condition

- FAILED does not always mean that no money moved: a retry can fail while an earlier post is still in flight
  (`LateCommit`), and a refused quote can fail a transfer that another caller has prepared (`QuoteRace`).  A FAILED
  transfer that is not posted can still be posted exactly when an attempt was left behind and its wallets have no
  account in another currency (`LooseEnds.FailedMayPostIff`).  None is left behind in a run where a retry is claimed,
  or a transfer failed for its quote, only while the transfer is idle (`QuietRuns`).
- A domestic transfer left PENDING by a crash is never recovered, and a refused quote of another client is read as
  "still processing" for ever; forced reconcile settles all other open transfers (`Progress`).
- Outside the 24-hour window a paid payroll item is recorded FAILED (`ExpiredKey`); the debits of a job equal its
  completed amount exactly when no other item was paid, and inside the window, once all items are terminal, exactly
  when no FAILED item names a posted transfer.
- Object keys inside an array that lies directly in an array are not sorted before hashing, so storage can break the
  verification of a chain that was appended correctly; `AuditJson.StableIffOrderIgnored` gives the exact condition.
- The version comparison is not antisymmetric when the first different identifiers are numbers that round to the same
  double or two spellings of one number, which the pattern admits; `Semver.AntisymmetricIff` gives the exact condition.
- Pagination skips rows when times are not whole milliseconds; `HistoryPages.LosslessIffSafe` gives the exact condition.
- The HTTP status of a failed transfer is stable only through stored replay (`WorldTheorems.FailureStatusIsStored`).

## Model

| member | source | states |
|---|---|---|
| LedgerInvariant.ReachableInv | services/ledger-service/src/ledger/posting.service.ts:285-408 | In every state any ledger run reaches (late commits, reversals, status changes included): each balance is the signed fold of the journal and fits its column, each version is the number of postings that touched it, no customer is overdrawn, per currency customers and clearing sum to the same, and every posting is balanced and passes its checks |
| LedgerInvariant.NextKeepsInv | services/ledger-service/src/ledger/posting.service.ts:64-272 | Every command (post, late post after an earlier lookup, fund, reverse, provision) keeps that invariant from any state that has it |
| LedgerInvariant.CommitConserves | services/ledger-service/src/ledger/posting.service.ts:344-397 | One committed posting keeps customer total equal to clearing total in every currency, whatever its entries |
| LedgerInvariant.NetMovement | services/ledger-service/src/ledger/posting.service.ts:344-351 | Customers minus clearing moves by credits minus debits, for any entry list |
| LedgerInvariant.ApplyIsMovement | services/ledger-service/src/ledger/posting.service.ts:335-351 | Applying entries one by one to the balance map is the signed sum of the entries of that account |
| LedgerInvariant.ProjectionStep | services/ledger-service/src/ledger/posting.service.ts:389-397 | After one more posting a balance is the fold of the longer journal and its version has grown exactly if it was touched |
| LedgerInvariant.OpenKeepsInv | services/ledger-service/src/ledger/ledger-account.service.ts:28-37 | Opening an account with a zero balance keeps the invariant |
| LedgerInvariant.MonitorAgreesWithTrigger | services/ledger-service/src/ledger/ledger-invariant.service.ts:40-57 | With positive amounts the monitor reports no group for a posting exactly when the deferred trigger (two entries, balanced) accepts it |
| LedgerInvariant.ReachableHasNoViolation | services/ledger-service/src/ledger/ledger-invariant.service.ts:39-81 | verify() finds nothing in any reachable ledger |
| LedgerInvariant.ReversalAlwaysValid | services/ledger-service/src/ledger/posting.service.ts:179-204 | The direction-swapped reversal of any accepted posting passes validation and every check, and cancels it on every account |
| LedgerInvariant.ReversalsInReachable | services/ledger-service/src/ledger/posting.service.ts:163-178 | A reversal points to an earlier posting that is no reversal, is its only reversal, and is never reversed itself |
| LedgerInvariant.FxCustomerShape | services/ledger-service/src/ledger/posting.service.ts:105-140 | However many customer lines an accepted FX transfer has, those in the source currency are debits totalling the source amount and those in the target currency credits totalling the target amount |
| LedgerInvariant.SameCurrencyAmountsAgree | services/ledger-service/src/ledger/posting.service.ts:539-554 | In one currency an accepted posting has equal source and target amounts |
| LedgerGrowth.PostAfterLookupGrows | services/ledger-service/src/ledger/posting.service.ts:285-462 | A post whose lookup ran at any earlier time adds at most one posting, only under a reference not yet used, and answers only with a posting of its own reference and hash |
| LedgerGrowth.NextGrows | services/ledger-service/prisma/migrations/20260830000100_posting_guards/migration.sql:22-37 | Every ledger event only appends to the journal, under its own reference, and never changes an owner or a currency |
| LedgerStore.ValidateResolved | services/ledger-service/src/ledger/posting.service.ts:506-554 | The loops over the entries and over the totals map report exactly the first failure of the definition: balanced in every currency and matching the metadata |
| LedgerStore.LedgerTables.LockBalances | services/ledger-service/src/ledger/posting.service.ts:295-333 | The balances of exactly the distinct accounts of the entries are locked, in ascending order, and the `next` map starts from what they hold |
| LedgerStore.LedgerTables.ApplyAll | services/ledger-service/src/ledger/posting.service.ts:335-351 | The `next` map ends with exactly the touched accounts and their new balances |
| LedgerStore.LedgerTables.WriteBalances | services/ledger-service/src/ledger/posting.service.ts:389-397 | The write loop turns the balance table into the specified next one |
| LedgerStore.LedgerTables.Attempt | services/ledger-service/src/ledger/posting.service.ts:293-408 | One attempt of the transaction is the commit function; any refusal leaves every table as it was |
| LedgerStore.LedgerTables.PostResolved | services/ledger-service/src/ledger/posting.service.ts:285-426 | At most three attempts, only after serialization failures; if one goes through the result is that of validation and commit, otherwise nothing has changed |
| LedgerStore.LedgerTables.HandleFailure | services/ledger-service/src/ledger/posting.service.ts:442-462 | A unique violation is answered by the posting that won if its hash agrees, otherwise refused |
| LedgerStore.LedgerTables.ResolveEntries | services/ledger-service/src/ledger/posting.service.ts:73-141 | Wallet resolution and the two clearing legs, in the order of the code, with its two refusals |
| LedgerStore.LedgerTables.Post | services/ledger-service/src/ledger/posting.service.ts:64-146 | The whole method is the specification function used in every proof about runs; if all attempts conflict, answer and tables are those of lookup, resolution and validation, with the clearing accounts it ensured and a server error for the rest |
| LedgerStore.LedgerTables.Reverse | services/ledger-service/src/ledger/posting.service.ts:148-210 | The same for reversals, with its refusals in order, and with all attempts in conflict |
| LedgerStore.LedgerTables.Fund | services/ledger-service/src/ledger/posting.service.ts:212-272 | The same for funding; the clearing account is ensured before the lookup |
| LedgerAnswers.HashesAgreeIff | services/ledger-service/src/ledger/posting.service.ts:556-589 | Two commands hash alike exactly when all their fields agree and their lines agree as multisets |
| LedgerAnswers.PostAnswers | services/ledger-service/src/ledger/posting.service.ts:64-146 | In every ledger a successful post names a posting of the resulting journal with the reference and the hash of the command, and a refusal leaves the journal alone |
| LedgerAnswers.PostUnderTaken | services/ledger-service/src/ledger/posting.service.ts:428-440 | Under a reference that is taken a post changes nothing; it is answered with that posting if the hashes agree and refused as reused otherwise |
| LedgerAnswers.PostedIsAsked | services/ledger-service/src/ledger/posting.service.ts:64-146 | In any reachable ledger the posting a success names is the command: its kind, currencies, amounts, quote and rate, its lines booked on the accounts of their wallets, and besides them only accounts without a wallet |
| LedgerAnswers.ReachableIsTrue | services/ledger-service/src/ledger/posting.service.ts:364-385 | In every reachable ledger each stored hash stands for its posting: the transfer booked, the posting reversed, or the wallet funded |
| LedgerAnswers.PostRefuses | services/ledger-service/src/ledger/posting.service.ts:68-104 | A command of the wrong shape, then one with an unknown wallet, then one with a wallet not ACTIVE in its currency is refused for that reason and changes nothing |
| LedgerAnswers.PaperRefuses | services/ledger-service/src/ledger/posting.service.ts:506-554 | With usable wallets and a free reference a command is refused for a negative amount, then a negative rate, then a currency whose debits and credits differ, then sums that are not its amounts, all counted on its lines, and on no other ground of that kind |
| LedgerAnswers.OverdraftRefused | services/ledger-service/src/ledger/posting.service.ts:344-357 | A transfer of more than its sender owns is refused for insufficient funds and changes nothing |
| LedgerAnswers.ReverseAnswers | services/ledger-service/src/ledger/posting.service.ts:148-210 | The same as for post: a successful reversal names a posting of its own reference and hash |
| LedgerAnswers.ReverseUnderTaken | services/ledger-service/src/ledger/posting.service.ts:428-440 | Under a taken reference a reversal changes nothing and only the same reversal is answered |
| LedgerAnswers.ReverseRefuses | services/ledger-service/src/ledger/posting.service.ts:148-178 | Unknown postings, reversals and, under a free reference, postings already reversed are refused |
| LedgerAnswers.FundAnswers | services/ledger-service/src/ledger/posting.service.ts:212-272 | The same as for post: a successful funding names a posting of its own reference and hash |
| LedgerAnswers.FundUnderTaken | services/ledger-service/src/ledger/posting.service.ts:428-440 | Under a taken reference funding posts nothing and only the same funding is answered |
| LedgerAnswers.FundRefuses | services/ledger-service/src/ledger/posting.service.ts:212-238 | Without an ACTIVE account of the wallet in the currency, funding is refused and changes nothing |
| LedgerAnswers.ClosedIsUntouched | services/ledger-service/src/ledger/posting.service.ts:306-317 | No event moves the balance or version of a CLOSED account, and none but a reversal that of a FROZEN one |
| LedgerAnswers.PostingShape | services/ledger-service/prisma/migrations/20260830000100_posting_guards/migration.sql:8-72 | Every reachable posting has positive amounts that fit and at least two lines; in one currency equal amounts and no quote, in two a quote and a positive rate; and is a REVERSAL exactly if it reverses something |
| Effects.CommitEffect | services/ledger-service/src/ledger/posting.service.ts:335-397 | A committed posting moves every account by exactly its signed entries |
| Effects.TransferEffect | services/transaction-service/src/transfers/transfer.service.ts:481-512 | When a transfer is posted, directly or through clearing, its sender loses the source amount, its recipient gains the target amount and every other customer keeps what it had |
| Effects.FundEffect | services/ledger-service/src/ledger/posting.service.ts:239-267 | Funding credits the wallet by the amount and no other customer |
| Payable.ComesToAccept | services/ledger-service/src/ledger/posting.service.ts:64-146 | Whatever a sound ledger holds, other callers can bring it to accept the command of a transfer as long as neither wallet has an account in another currency (and, for FX, the circulation of the target currency has room in its columns): a constructed sequence of openings, status changes, moves and funding |
| Payable.ClearingHolds | services/ledger-service/src/ledger/posting.service.ts:335-397 | All that the customers of a currency own is what its one clearing account holds |
| Fx.ConvertedIsNearest | services/fx-service/src/quotes/quote.service.ts:25-27 | The quoted amount is the exact product to within half a unit of the eighth decimal, an exact half going up |
| Fx.ConsumeKeeps | services/fx-service/src/quotes/quote.service.ts:70-129 | A successful consumption happens before expiry, matches client and details, binds the quote to the transfer and returns its terms; a refusal changes nothing; terms never change |
| Fx.RetryGetsSameTerms | services/fx-service/src/quotes/quote.service.ts:90-96 | Once consumed, the same transfer gets the same terms at any later time and changes nothing |
| Fx.RefusalIsFinal | services/fx-service/src/quotes/quote.service.ts:75-102 | A definite refusal is permanent: whatever becomes of the table, no consumption under that claim whose transaction begins later succeeds |
| Fx.GetDecides | services/fx-service/src/quotes/quote.service.ts:50-68 | A read is refused for an unknown quote or another client, marks an overdue ACTIVE quote EXPIRED, and leaves every other quote, a live one among them, exactly as it is |
| Fx.ConsumeDecides | services/fx-service/src/quotes/quote.service.ts:70-129 | A consumption succeeds exactly on a live quote of its client with its details whose transfer has spent no other, or on one this transfer has consumed; each refusal is decided by its own condition, in the order of the code |
| QuoteBook.SplitConsumeIsAtomic | services/fx-service/src/quotes/quote.service.ts:75-122 | However read and conditional update interleave with other transactions, they amount to one atomic consumption at the update or a refusal decided at the read, up to the code among refusals of equal HTTP status |
| QuoteBook.QuoteTable.Create | services/fx-service/src/quotes/quote.service.ts:17-48 | A quote is stored exactly when currencies differ and both amounts and the rate are positive and fit their columns, and lives 60 seconds |
| QuoteBook.QuoteTable.Get | services/fx-service/src/quotes/quote.service.ts:50-68 | An ACTIVE quote past its time is marked EXPIRED for good; what is returned as ACTIVE is live |
| QuoteBook.QuoteTable.Consume | services/fx-service/src/quotes/quote.service.ts:70-129 | The statements inside their transaction are the atomic function; the EXPIRED mark of a refusal is rolled back |
| Transfers.ClaimIsOk | services/transaction-service/src/transfers/transfer.service.ts:265-315 | A claim writes a transfer, its record and its history in agreement |
| Transfers.PrepareIsOk | services/transaction-service/src/transfers/transfer.service.ts:410-458 | Preparation keeps the rows in agreement and passes the update guard |
| Transfers.CompleteIsOk | services/transaction-service/src/transfers/transfer.service.ts:590-626 | Completion keeps transfer, history and stored reply in agreement |
| Transfers.FailIsOk | services/transaction-service/src/transfers/transfer.service.ts:645-676 | So does failure, before preparation (no history rows) and after |
| TransferStore.TransferTables.Claim | services/transaction-service/src/transfers/transfer.service.ts:251-327 | Either the transfer of the key, untouched, or all rows of a new one; no other transfer changes |
| TransferStore.TransferTables.Transition | services/transaction-service/src/transfers/transfer.service.ts:684-701 | PENDING to PROCESSING with exactly its PENDING history rows |
| TransferStore.TransferTables.Prepare | services/transaction-service/src/transfers/transfer.service.ts:410-458 | The preparation transaction on the three tables is the row function; others untouched |
| TransferStore.TransferTables.Complete | services/transaction-service/src/transfers/transfer.service.ts:586-637 | The completion transaction on the three tables is the row function, and the reply that of the row |
| TransferStore.TransferTables.Fail | services/transaction-service/src/transfers/transfer.service.ts:639-682 | The failure transaction is the row function; the reply carries the given status only when it made the transition |
| TransferStore.TransferTables.ClaimRetry | services/transaction-service/src/transfers/transfer.service.ts:703-717 | The optimistic version check succeeds exactly when the row is PROCESSING, unchanged since it was read and, unless forced, stale |
| WorldRuns.ReachableInv | services/transaction-service/src/transfers/transfer.service.ts:171-717 | The joint invariant of transfers, quotes, posts in flight and ledger holds after every run of any interleaving of activations, crashes and lost messages |
| WorldRuns.NextKeepsInv | services/transaction-service/src/transfers/transfer.service.ts:171-717 | Each single event keeps it, from any state that has it |
| WorldTheorems.OneTransferPerKey | services/transaction-service/src/transfers/transfer.service.ts:251-327 | Each (client, key) has at most one transfer in every reachable state |
| WorldTheorems.OnePostingPerTransfer | services/transaction-service/src/transfers/transfer.service.ts:485-517 | Each transfer id has at most one posting, and it moves exactly that transfer's amounts between its wallets |
| WorldTheorems.AttemptsCarryOneHash | services/transaction-service/src/transfers/transfer.service.ts:480-512 | Any two post attempts for a transfer, at any two moments of a run, carry the same command; so does the posting |
| WorldTheorems.CompletedIsPosted | services/transaction-service/src/transfers/transfer.service.ts:586-637 | COMPLETED names a posting that exists with exactly this transfer's wallets, amounts, currencies and quote |
| WorldTheorems.UpdatesAreGuarded | services/transaction-service/prisma/migrations/20260830000400_international_preparation/migration.sql:32-85 | Every update the service issues in any reachable state satisfies the update triggers and the CHECKs |
| WorldTheorems.NextRowsEvolve | services/transaction-service/prisma/migrations/20260830000200_transfer_guards/migration.sql:5-53 | One event changes rows only as the guards allow, and terminal rows not at all |
| WorldTheorems.TerminalIsFinal | services/transaction-service/prisma/migrations/20260830000300_transfer_state_consistency/migration.sql:1-41 | Once terminal, a transfer, its record and its history are the same in every later state |
| WorldTheorems.RowsAgree | services/transaction-service/src/history/history-projection.service.ts:108-134 | After every step the record state mirrors the transfer status and the history rows are exactly the expected rows |
| WorldTheorems.TerminalRepliesAreStored | services/transaction-service/src/transfers/transfer.service.ts:225-249 | Any reply that reports a terminal transfer, whenever given, has the stored body |
| WorldTheorems.LateRequestIsReplayed | services/transaction-service/src/transfers/transfer.service.ts:225-249 | A request for the key of a terminal transfer gets mismatch, expired or the stored reply, in that order |
| WorldTheorems.FailureStatusIsStored | services/transaction-service/src/transfers/transfer.service.ts:895-906 | A failure is stored under its own HTTP status; a reply computed from the row equals it exactly when that status is 422 |
| WorldTheorems.QuoteSettlesOnce | services/transaction-service/src/transfers/transfer.service.ts:395-463 | At most one FX posting settles a quote, on the quote's amounts and rate, and the quote was consumed strictly before expiry |
| WorldTheorems.CrashedConsumptionRetries | services/transaction-service/src/transfers/transfer.service.ts:399-412 | After a crash between consumption and preparation the same transfer's next consumption succeeds at any later time with the first terms |
| WorldTheorems.LedgerStaysSound | services/ledger-service/src/ledger/posting.service.ts:285-408 | The ledger inside any reachable system satisfies the ledger invariant |
| WorldTheorems.CompletedReplyIsPosted | services/transaction-service/src/transfers/transfer.service.ts:873-906 | A reply that says COMPLETED names a posting of the journal with exactly the amounts, currencies, quote and rate it states |
| WorldTheorems.QuoteServesOneTransfer | services/fx-service/src/quotes/quote.service.ts:103-115 | A quote serves one transfer, and a prepared transfer carries exactly its quote's target amount and rate |
| RetryClaims.VersionsGrow | services/transaction-service/src/transfers/transfer.service.ts:590-717 | Over any stretch of any run, every write of a transfer strictly raises its version: the same version means the same rows |
| RetryClaims.OneClaimPerVersion | services/transaction-service/src/transfers/transfer.service.ts:703-717 | After one activation has claimed a retry on a version, no activation that read this version or an older one claims at any later moment |
| RetryClaims.ClaimSeesItsRow | services/transaction-service/src/transfers/transfer.service.ts:703-717 | In every reachable system a claim succeeds only if no column of the transfer differs from what was read |
| RetryClaims.ClaimStep | services/transaction-service/src/transfers/transfer.service.ts:703-717 | A claim succeeds exactly on a PROCESSING row of the version read that is stale unless forced; it then takes the next version and the time, and otherwise changes nothing |
| RetryClaims.ReconcileDecides | services/transaction-service/src/transfers/transfer.service.ts:171-206 | A reconcile that finds the posting completes with it; without one, a forced call goes on to claim, and an unforced one only when the row is thirty seconds old |
| WalletChecks.SendingApproves | services/transaction-service/src/transfers/transfer.service.ts:465-517 | Only one event adds a post to a transfer: a process() of it taking an answer in which the client owns the sending wallet, both wallets are active and provisioned, and their currencies are those of the transfer |
| WalletChecks.AttemptsAreApproved | services/transaction-service/src/transfers/transfer.service.ts:831-871 | Every post in flight in any reachable system was approved in this sense at an earlier moment |
| WalletChecks.PostedIsApproved | services/transaction-service/src/transfers/transfer.service.ts:831-871 | So was every transfer whose posting is in the journal of any reachable system |
| Verdicts.UnapprovedSendsNothing | services/transaction-service/src/transfers/transfer.service.ts:831-871 | Any other answer sends no post and goes on to fail the transfer: 403 for another owner, then 409 for unusable wallets, then 409 for other currencies; 503 if the service is down or answers 401, 403 or 5xx, else its own status |
| Verdicts.LedgerAnswerDecides | services/transaction-service/src/transfers/transfer.service.ts:569-584 | A post answered with success completes with that posting; a refusal fails the transfer under the status of the Ledger; server errors and silence leave it open, answered 202 |
| Verdicts.FxAnswerDecides | services/transaction-service/src/transfers/transfer.service.ts:552-567 | A consumption answered with terms prepares with them; 404 and 409 fail the transfer; 403, server errors and silence leave it open, answered 202 |
| Verdicts.FailingReplies | services/transaction-service/src/transfers/transfer.service.ts:639-682 | Failing an open transfer stores its reason, and the reply carries that reason under the given status and is what the record keeps |
| Verdicts.CompletingReplies | services/transaction-service/src/transfers/transfer.service.ts:586-637 | Completing stores posting and time, and the 201 reply carries both and is what the record keeps |
| Verdicts.FailedHasCause | services/transaction-service/src/transfers/transfer.service.ts:519-584 | In every reachable system a FAILED transfer has a cause among those of the code, stored under the status that belongs to it |
| Verdicts.RepliesAreTrue | services/transaction-service/src/transfers/transfer.service.ts:873-906 | Every reply in any reachable system is about its own transfer: 202 with a place to ask for an open one, 201 with the posting for a completed one, 422 or the stored status with the recorded reason for a failed one |
| Verdicts.RepeatedRequestDecides | services/transaction-service/src/transfers/transfer.service.ts:225-249 | A repeated request: another payload is refused first, then an expired key, then the stored reply is given; only an open transfer is reconciled |
| Verdicts.KeyLivesADay | services/transaction-service/src/transfers/transfer.service.ts:265-315 | The replay window of every key in any reachable system is twenty-four hours from its first request |
| LooseEnds.FailedMayPostIff | services/transaction-service/src/transfers/transfer.service.ts:171-206 | In every reachable system, with no discipline assumed: a FAILED transfer is posted now or in some continuation only if its posting exists, or an attempt was left behind (a post without an answer, or a process() that still waits for the Account service) and neither wallet has an account in another currency; if the target currency of an FX transfer has room, and for every domestic transfer, exactly then |
| LooseEnds.StaysSettled | services/transaction-service/src/transfers/transfer.service.ts:639-682 | A FAILED transfer without posting and without such an attempt has none in any continuation |
| LooseEnds.EndMayPost | services/transaction-service/src/transfers/transfer.service.ts:465-517 | From any such attempt the continuation that posts is constructed: other callers prepare the ledger, the Account service answers, the post is looked up and run |
| QuietRuns.FailedIsNeverPosted | services/transaction-service/src/transfers/transfer.service.ts:171-206 | In runs where a retry is claimed, or a transfer failed for its quote, only while no process() activation, post or posting of that transfer exists, FAILED means no posting exists or ever will |
| QuietRuns.DisciplinedIsCalm | services/transaction-service/src/transfers/transfer.service.ts:171-206 | The invariant behind it holds in every such run |
| LateCommit.FailedThenPosted | services/transaction-service/src/transfers/transfer.service.ts:519-550 | A concrete run ends FAILED with its posting in the journal: a retry fails at the Account service while an earlier post is in flight |
| LateCommit.LateCommitIsUndisciplined | services/transaction-service/src/transfers/transfer.service.ts:703-717 | That run violates the discipline |
| QuoteRace.FailedForQuoteMayPost | services/fx-service/src/quotes/quote.service.ts:70-113 | A concrete run with two callers of one transfer: a consumption that began before the quote expired commits after a later one was refused, its caller prepares the transfer, the other fails it, and a continuation posts it |
| Progress.ForcedReconcileSettles | services/transaction-service/src/transfers/transfer.service.ts:171-206 | A forced reconcile of a PROCESSING transfer, or of a PENDING international one whose quote is not another client's, whose calls are answered, takes at most 14 moves of its own, whatever other transfers, callers, quotes and time do in between, and when it has replied the transfer is terminal, COMPLETED exactly when posted |
| Progress.NeverStuck | services/transaction-service/src/transfers/transfer.service.ts:465-584 | Until it has replied it always has a next move, unless the Ledger answers with a server error |
| Progress.ForcedReconcileStalls | services/transaction-service/src/transfers/transfer.service.ts:181-183 | Every other open transfer (PENDING domestic, or quote of another client) is left exactly as it was, whatever happens elsewhere meanwhile |
| Progress.ForeignUndisturbs | services/transaction-service/src/transfers/transfer.service.ts:171-206 | Events of other transfers, other callers, quotes and time, and other activations that only come, go or read, change nothing an activation depends on |
| Progress.OwnedConsumeIsDefinite | services/transaction-service/src/transfers/transfer.service.ts:552-567 | For a quote of the transfer's own client the answer is never the 403 that is read as still processing |
| PayrollInvariant.NextKeepsInv | services/payroll-service/src/payroll/payroll-processor.service.ts:142-246 | Every step of workers, transfers and ledger together keeps the payroll invariant |
| PayrollInvariant.HeardIsOk | services/payroll-service/src/payroll/payroll-processor.service.ts:142-197 | What a worker hears is true of its item's transfer: a COMPLETED body of a completed one, a FAILED body of a failed one, never a payload mismatch |
| PayrollTheorems.CountersAreCounts | services/payroll-service/src/payroll/payroll-processor.service.ts:199-230 | In every interleaving of workers, stale tokens and crashes the counters are the numbers of items in those states |
| PayrollTheorems.TerminalItemIsFinal | services/payroll-service/src/payroll/payroll-processor.service.ts:207-223 | A terminal item never changes |
| PayrollTheorems.StaleWorkerWritesNothing | services/payroll-service/src/payroll/payroll-processor.service.ts:199-223 | A worker that has lost its claim of an item, to another worker or to a recorded answer, writes nothing at any later moment, whatever it has heard |
| PayrollTheorems.FinalizeWritesAgree | services/payroll-service/src/payroll/payroll-processor.service.ts:232-246 | All finalize writes of a job agree at any two moments, even if its status was reopened in between |
| PayrollTheorems.TerminalStatusIsTrue | services/payroll-service/src/payroll/payroll-processor.service.ts:236-240 | A terminal job has only terminal items; COMPLETED iff none failed, FAILED iff none completed |
| PayrollTheorems.ItemsNameOwnTransfers | services/payroll-service/src/payroll/payroll-processor.service.ts:199-218 | No two items ever name the same transfer |
| PayrollTheorems.MoneyIsBounded | services/payroll-service/src/payroll/payroll-processor.service.ts:142-230 | In every reachable state: completed amount <= journal debits of the source wallet for the job <= total amount |
| PayrollTheorems.MoneyIsExactIff | services/payroll-service/src/payroll/payroll-processor.service.ts:142-230 | The debits equal the completed amount if and only if no other item was paid |
| PayrollTheorems.FinalizedMoneyIsExactIff | services/payroll-service/src/payroll/payroll-processor.service.ts:232-246 | With all items terminal and retries inside the 24 hours, the debits equal the completed amount if and only if no FAILED item names a transfer that was posted |
| PayrollTheorems.PaidFailure | services/payroll-service/src/payroll/payroll-processor.service.ts:166-197 | In every reachable state an item that is FAILED although it was paid was refused for the age of its key, or its transfer failed and was posted |
| PayrollTheorems.FinalizedMoneyIsExact | services/payroll-service/src/payroll/payroll-processor.service.ts:232-246 | With all items terminal, retries inside the 24 hours and the discipline above, the debits equal the completed amount |
| PayrollTheorems.PostingPaysItem | services/payroll-service/src/payroll/payroll-processor.service.ts:142-165 | In every reachable state any posting made for an item debits the wallet of the job and credits the wallet of this item's recipient by exactly its amount |
| PayrollTheorems.CompletedItemIsPaid | services/payroll-service/src/payroll/payroll-processor.service.ts:199-223 | Every COMPLETED item names a transfer whose posting is in the journal and pays this recipient this amount from the wallet of the job |
| ExpiredKey.OverdueRetryFails | services/transaction-service/src/transfers/transfer.service.ts:236-241 | In every state with an unrecorded item whose window is over, the retry marks it FAILED and leaves transfer and ledger alone |
| ExpiredKey.PaidItemFailsAfterADay | services/payroll-service/src/payroll/payroll-processor.service.ts:166-169 | A concrete run: the item is paid, its worker crashes, and the retry a day later records FAILED with 40 debited and 0 completed |
| PayrollWorker.PayrollProcessor.ClaimPendingBatch | services/payroll-service/src/payroll/payroll-processor.service.ts:111-140 | Claims exactly the first PENDING items, in order, at most 100, each under its own token that no row has carried, and changes no other row |
| PayrollWorker.PayrollProcessor.ReconcileClaimedItems | services/payroll-service/src/payroll/payroll-processor.service.ts:82-109 | Without error no item is left PROCESSING |
| PayrollWorker.PayrollProcessor.ExecuteItem | services/payroll-service/src/payroll/payroll-processor.service.ts:142-197 | One call is the checkpoint of its answer, or the error that stops the worker |
| PayrollWorker.PayrollProcessor.Finalize | services/payroll-service/src/payroll/payroll-processor.service.ts:232-246 | Writes the final status exactly when every item is terminal |
| PayrollWorker.PayrollProcessor.Process | services/payroll-service/src/payroll/payroll-processor.service.ts:23-70 | Ends from any rows; never rewrites a terminal item; a busy lease changes nothing; without faults every item ends terminal with what the service said and the job in its final status |
| PayrollSubmit.NormalizeCommand | services/payroll-service/src/payroll/payroll.service.ts:282-307 | The loop with its `seen` set reports the first problem from left to right, otherwise the sorted copy |
| PayrollSubmit.ProblemStops | services/payroll-service/src/payroll/payroll.service.ts:282-307 | The problem reported belongs to the first line that repeats an id or has a negative amount, a repeated id coming first |
| PayrollSubmit.HashIgnoresOrder | services/payroll-service/src/payroll/payroll.service.ts:266-280 | Two accepted commands hash alike exactly when source, currency and the multiset of lines agree |
| PayrollSubmit.PayrollDesk.Replay | services/payroll-service/src/payroll/payroll.service.ts:121-139 | Mismatch before expiry before the job; a PENDING job is enqueued again |
| PayrollSubmit.PayrollDesk.Create | services/payroll-service/src/payroll/payroll.service.ts:63-96 | Whatever the tables have become since the lookup: amounts out of range are refused first, a key taken in between is answered by a replay of the job that won it, otherwise exactly one job and its record are added, with one PENDING item for each line in ascending id, to the recipient and of the amount of its line, and no other job changes |
| PayrollSubmit.PayrollDesk.Submit | services/payroll-service/src/payroll/payroll.service.ts:35-100 | A refused command changes nothing, a used key is a replay, a refused wallet or amount changes nothing, and otherwise exactly one job is added whose items, field by field, are the submitted lines in ascending id; a used key never makes a second one |
| EmployerLease.ExclusiveUntilDeadline | services/payroll-service/src/queue/employer-lease.service.ts:20-51 | While the holder renews in time and does not release, the lease stays with it and its own renewals are the only operations on the key that succeed, whatever others do |
| EmployerLease.LostForGood | services/payroll-service/src/queue/employer-lease.service.ts:31-51 | Once another token has been acquired, the old one, never acquired again, holds at no later moment and every renewal or release under it fails |
| EmployerLease.LeaseStore.Acquire | services/payroll-service/src/queue/employer-lease.service.ts:20-29 | Succeeds exactly when no live key exists |
| EmployerLease.LeaseStore.Renew | services/payroll-service/src/queue/employer-lease.service.ts:31-40 | Succeeds exactly for the live token |
| EmployerLease.LeaseStore.Release | services/payroll-service/src/queue/employer-lease.service.ts:42-51 | Deletes only the caller's own live key |
| HistoryPages.WalkDescends | services/transaction-service/src/transfers/transfer.service.ts:133-168 | Whatever happens to the table between reads, and whatever its times, a cursor walk returns strictly descending rows, so none twice |
| HistoryPages.PageDecides | services/transaction-service/src/transfers/transfer.service.ts:133-168 | A page is the highest rows below its cursor, and it names a next page, starting after its last row, exactly when it has left a row out |
| HistoryPages.PresentRowsAppearOnce | services/transaction-service/src/transfers/transfer.service.ts:133-168 | A row present at every read of a completed walk appears in it exactly once, if no row ever in the table falls between another and its cursor |
| HistoryPages.LosslessIffSafe | services/transaction-service/src/transfers/transfer.service.ts:133-168 | A fixed table is paged without loss at every limit from 1 to 100 if and only if no row falls between another and its cursor |
| HistoryPages.ProjectionIsSafe | services/transaction-service/src/history/history-projection.service.ts:108-134 | Tables of projected rows, whose times are whole milliseconds, satisfy that |
| HistoryPages.PagesConcatenate | services/transaction-service/src/transfers/transfer.service.ts:133-168 | On such a fixed table the pages of a completed walk concatenate to the sorted table |
| HistoryPages.WalkCompletes | services/transaction-service/src/transfers/transfer.service.ts:152-167 | More reads than rows complete the walk of a fixed table, at any limits from 1 to 100 |
| HistoryPages.MisalignedRowIsLost | services/transaction-service/src/history/history-cursor.ts:19-32 | With times that are not whole milliseconds the cursor skips a row |
| HistoryRebuild.HistoryProjection.Rebuild | services/transaction-service/src/history/history-projection.service.ts:31-105 | From any rows respecting the foreign key, for every batch size, ends with exactly the expected rows of all transfers and exact counts |
| HistoryRebuild.HistoryProjection.Project | services/transaction-service/src/history/history-projection.service.ts:66-95 | One transfer: its rows written, its strays removed and counted, no other row touched |
| HistoryRebuild.HistoryProjection.ProjectBatch | services/transaction-service/src/history/history-projection.service.ts:63-98 | One batch, with counts that are exactly what happened |
| HistoryRebuild.SecondRunRemovesNothing | services/transaction-service/src/history/history-projection.service.ts:84-93 | A rebuild that starts from the projection finds nothing to remove |
| HistoryRebuild.ProjectionIsUnique | services/transaction-service/src/history/history-projection.service.ts:108-134 | There is only one projection, so a second run also changes nothing |
| HistoryRebuild.ProjectionByTransfer | services/transaction-service/src/history/history-projection.service.ts:108-134 | The projection is the table in which each transfer's rows are its expected rows, the form kept incrementally |
| HistoryTruth.CompletedHistoryIsJournal | services/transaction-service/src/history/history-projection.service.ts:108-134 | A COMPLETED transfer of any reachable system has exactly two rows: the sender sees amount and currency of the debit on its account, the recipient those of the credit on its account, each names the other and the quote |
| HistoryTruth.PreparedHistoryIsQuote | services/transaction-service/src/transfers/transfer.service.ts:414-458 | From preparation on, whatever becomes of it, an international transfer shows its sender the source terms and its recipient the target terms of its quote |
| HistoryTruth.HistoryFromRequest | services/transaction-service/src/transfers/transfer.service.ts:280-301 | A domestic transfer shows the requested amount to both wallets from its claim on, and an international one nothing until it is prepared |
| AuditChain.VerifyRecords | services/admin-service/src/audit/audit.service.ts:54-86 | The loop accepts exactly the correct chains with their head, and otherwise reports the end of the longest correct prefix |
| AuditChain.TamperEvidence | services/admin-service/src/audit/audit.service.ts:208-236 | Two record lists that verify against the same last hash agree on every hashed field |
| AuditChain.RunsVerify | services/admin-service/src/audit/audit.service.ts:115-168 | Every interleaving of locked appends and retries gives contiguous, accepted chains with one record per event, whatever storage does to key order, for stable metadata |
| AuditChain.CommitLinks | services/admin-service/src/audit/audit.service.ts:127-167 | One append extends a correct chain correctly exactly when storage has left the sorted form of the metadata as it was hashed |
| AuditChain.UnstableEventBreaksVerify | services/admin-service/src/audit/audit.service.ts:277-288 | For any other metadata storage has a key order for which the next verification fails |
| AuditChain.NestedArraysAreAccepted | services/admin-service/src/audit/audit.service.ts:255-275 | The sanitizer accepts such metadata: an object in an array in an array |
| AuditChain.RetriesAreAnswered | services/admin-service/src/audit/audit.service.ts:119-120 | Once recorded, an event is answered from its record for ever and other data under its id is refused |
| AuditChain.UsedIdDecides | services/admin-service/src/audit/audit.service.ts:181-201 | Under a recorded event id nothing is written; the record is the answer exactly when stream, action, entity, actor and metadata are the same and, unless an operator retries, the time; anything else is refused as reused |
| AuditChain.FirstAppendSucceeds | services/admin-service/src/audit/audit.service.ts:181-201 | A first append of stable metadata adds one record with every field of the event at the head of its stream and answers with it |
| AuditChain.AuditLog.AppendTransaction | services/admin-service/src/audit/audit.service.ts:122-170 | The locked transaction is the commit function of the runs: it advances one head by one record unless the event is there |
| AuditChain.AuditLog.AppendNormalized | services/admin-service/src/audit/audit.service.ts:115-179 | Lookup, transaction and comparison together are the append function |
| AuditChain.AuditLog.Verify | services/admin-service/src/audit/audit.service.ts:47-102 | Valid exactly for a correct chain with its head; unknown streams are refused |
| AuditJson.StableIffOrderIgnored | services/admin-service/src/audit/audit.service.ts:277-288 | sortObject is insensitive to storage order exactly when no object with two keys lies in an array inside an array |
| AuditJson.SortIdempotent | services/admin-service/src/audit/audit.service.ts:277-288 | Sorting what is sorted changes nothing |
| AuditJson.SanitizedIsSorted | services/admin-service/src/audit/audit.service.ts:255-275 | What the sanitizer accepts is the same data with keys in order at every depth |
| AuditJson.AcceptedIff | services/admin-service/src/audit/audit.service.ts:255-275 | Metadata is accepted exactly when nothing lies more than four levels down in it, no object in it has more than 40 keys or one not allowed, no array more than 20 items, and every scalar is allowed |
| Locking.PlansAreInOrder | services/ledger-service/src/ledger/posting.service.ts:295-330 | Every posting locks its distinct accounts in ascending order, then its reference key, then the key of what it reverses |
| Locking.PlanCovers | services/ledger-service/src/ledger/posting.service.ts:295-376 | The plan is the balances of exactly the accounts of the entries and exactly the unique keys of the posting |
| Locking.SchedulesExclusive | services/ledger-service/src/ledger/posting.service.ts:319-376 | From posters that hold nothing, every schedule keeps each lock with one holder and each committed key free of holders, so no commit takes a key that another has taken |
| Locking.NoWaitCycle | services/ledger-service/src/ledger/posting.service.ts:319-376 | A chain of posters each waiting for the next never closes |
| Locking.NeverDeadlocked | services/ledger-service/src/ledger/posting.service.ts:319-376 | While any poster runs, some poster can lock, commit or be refused by a unique key |
| Locking.SchedulesEnd | services/ledger-service/src/ledger/posting.service.ts:291-426 | No schedule is longer than the locks and attempts its posters have left |
| Locking.FreshSchedulesEnd | services/ledger-service/src/ledger/posting.service.ts:291-426 | From the start, with three attempts each, within three times the locks and two more steps per poster |
| Semver.CompareSemver | tools/ci/affected-services.mjs:93-119 | The loops with their early returns compute the comparison function |
| Semver.CompareIsPrecedence | tools/ci/affected-services.mjs:93-119 | Whenever the first difference of two versions survives rounding and spelling, the comparison is exactly the precedence of section 11: total, antisymmetric, zero only for equal versions |
| Semver.ExactIsTold | tools/ci/affected-services.mjs:82-91 | That is so for all numbers below 2^53 without leading zeros |
| Semver.NumberGrows | tools/ci/affected-services.mjs:86-88 | Rounding to double precision never turns an order around |
| Semver.TextLowerIff | tools/ci/affected-services.mjs:93-119 | Identifiers that are not numbers are ordered by the first character in which they differ, a proper prefix being lower |
| Semver.SectionElevenExample | tools/ci/affected-services.mjs:93-119 | The example chain of section 11, from 1.0.0-alpha to 1.0.0, is ascending |
| Semver.LowerTransitive | tools/ci/affected-services.mjs:93-119 | The precedence is transitive on all versions |
| Semver.UnderTransitive | tools/ci/affected-services.mjs:93-119 | On everything the pattern admits, the comparison is transitive wherever it is antisymmetric |
| Semver.ZeroIff | tools/ci/affected-services.mjs:93-119 | On everything the pattern admits, it is zero exactly for versions that agree once their core numbers are rounded |
| Semver.AntisymmetricIff | tools/ci/affected-services.mjs:93-119 | On everything the pattern admits, swapping the arguments negates the result unless the rounded cores agree and the first different identifiers are numbers that round alike |
| Semver.LeadingZeroClash | tools/ci/affected-services.mjs:17 | 1.0.0-1 and 1.0.0-01 each compare below the other |
| Semver.RoundingClash | tools/ci/affected-services.mjs:111-114 | Any two numbers that round alike, written without leading zeros, each compare below the other as identifiers and as equal in the core |
| Semver.FirstRoundingClash | tools/ci/affected-services.mjs:86-88 | 2^53 and 2^53 + 1 are the first such pair |
| Semver.HistoryIncreases | tools/ci/affected-services.mjs:121-136 | A history of accepted changes goes up from any version to any later one, whatever the numbers, and never returns to an earlier version; in the precedence wherever the difference is told |

## Left out

- HTTP controllers, clients, guards, logging, metrics, tracing and configuration; a remote call is an outcome: done and answered, done and not heard of, refused, or never done.
- Refusals before the claim of a transfer (malformed keys, amounts or currencies) are a request that never arrives; unexpected errors and 401, 403 and 5xx answers of the Ledger lookup are calls without an answer, which the caller sees as still processing.
- Decimal arithmetic beyond exact integers: the precision setting of the decimal library is not part of the repository's text; only the rounding of a quoted amount to eight places is modelled.
- Hash functions, signatures, encryption, JSON text and dates; the wallet binding and signature of the history cursor (what is kept of it is the position it carries).
- The identifier and `updated_at` of a history row, `requestId` columns, retention dates, and `attempt_count` beyond being counted.
- Serializable isolation is taken as given: each transaction or single statement is one step. Only `Locking` looks at individual locks, and only `QuoteBook.SplitConsumeIsAtomic` inside a transaction.
- Resolving the wallets of a post and committing it are one step; the commit looks at the account states again anyway.
- The queue, its workers' concurrency limit and the recovery timer; `Payroll` allows any number of workers for a job at any time instead, with or without a lease.
- A 4xx from the transfer service for reasons outside its transfer logic (authentication, rate limits) would mark a payroll item FAILED; the model has only the refusals of a request's content, its payload and its age.
- Which key order storage chooses: metadata may come back in any order, while the database has one fixed order of its own.
- Parsing of versions, the selection of affected services, account provisioning details, wallet creation, email lookup and the FX rate table.
- LooseEnds.FailedMayPostIff: for an FX transfer the direction that constructs the posting needs room for the target amount in the circulation of its currency; whether a full circulation can always be drained by reversals is not settled.
- QuietRuns.FailedIsNeverPosted: goes one way; the exact condition, without the discipline, is `LooseEnds.FailedMayPostIff`.
- Fx.ConvertedIsNearest: on exact integers; the precision of the decimal library is left out.
- Fx.RefusalIsFinal: says nothing of a consumption that began earlier and is still uncommitted; `QuoteRace` shows what that does.
- AuditChain.AuditLog.Verify: reads stream and records as one snapshot, while the service reads them in two queries, between which an append may come.
- Semver.Number: rounds to nearest with ties to even for any number of digits, as engines do; the language definition allows digits after the twentieth to be replaced first.
- WorldTheorems.OnePostingPerTransfer: assumes that no other caller posts under a transfer id, which the Ledger itself does not enforce.
- PayrollTheorems.FinalizedMoneyIsExact: goes from the two hypotheses to the equality only; `PayrollTheorems.FinalizedMoneyIsExactIff` has both directions.
- Progress.ForcedReconcileSettles: other activations of the same transfer may come, go and read in between but write no rows and run no calls; if they do, the version check may send this one away, and the other carries on.
- PayrollSubmit.PayrollDesk.Create: the counters of queue failures are left out.
