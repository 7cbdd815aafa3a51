# Nkore Bank: verification of the core banking protocols

A Dafny model of the bank's money-moving core and proofs of what it is for: a ledger that is
only ever added to, in which no interleaving of requests loses, doubles or overdraws money.

The amounts are counted in units of 0.0001. A requested amount is an exact real; a stored one
is an integer, rounded half away from zero as a DECIMAL(19,4) column rounds it.

## How it is laid out

| module | what it holds |
|---|---|
| Common, Decimals, LexOrder | shared values, column rounding, the lexicographic order of account ids |
| Ledger | rows of the transaction schema, requests, and `Apply`, the atomic reference |
| Engine, EngineInvariants | the step machine of Deposit, Withdraw and Transfer, one statement a step, and its invariant |
| Serialisability, Overtaking, EngineExamples | every interleaving against `Apply`; exactly when it is serial; runs in which a promise fails |
| LedgerLaws, EngineGuarantees | laws of every history, carried over to every interleaving |
| Records, Outcomes | what a commit leaves on record field by field; exactly when each error is the outcome |
| Reference, RunAlone | one request carried out by itself, and the step machine run alone against it |
| Deadlock, Idempotency, Answers, StatusChecks | waiting, progress and termination; replay of a used key; what a client is answered; what its status check says later |
| TransactionService | the same operations as a class, statement by statement, against `Apply` |
| Publisher | the outbox publisher as a class, and its starvation and drain bounds |
| InterestArithmetic, Accruals, Bank, AccrualRecords, InterestLedger, InterestService | two-stage rounding, the accrual table, the serial bank, what an accrual records, conservation, the service as a class |
| AccountProtocol, AccountOutcomes, AccountService | account lifecycle and cache as interleaved steps, how each operation ends, and the service as a class |
| GeneralLedger | journal posting and the trial balance as a class, and the accounting identity |
| RateLimiter | the counter with a renewed time to live as a class, against a sliding-window log |

The main argument is in two stages. The step machine is proved to commit what the atomic
reference would commit, in commit order (`Serialisability`). The laws of the ledger are then
proved once about sequences of atomic operations (`LedgerLaws`) and hold in every reachable
state of every interleaving (`EngineGuarantees`). What fails is stated too: `FailedIff` says when
each error is the outcome under interleaving. The classes restate the same operations in the shape
of the Go code and are proved against the reference that the step machine run alone is proved to
reach (`AloneIsTheReference`).

Automatic induction is switched off for every lemma, so each proof is the body that is shown.

## Where the code and its description disagree

The model follows the code.

- The interest expense leg is described as a debit but is written with the literal `'CREDIT'`
  (internal/domain/interest/service.go:119-138). The engine takes the side as a parameter and
  `BooksBalance` says exactly what depends on it, `InterestCanUnbalance` shows a run; the serial bank and the interest service use
  the literal.
- Interest postings take no account lock, so a running balance stored by a commit they overtake
  is behind the ledger. `SerialIff`, `CommittedRunning` and `ExactIffUntouched` say exactly when
  and by how much, `RunningBalanceCanBeStale` shows a run.
- The balance that must be zero before closing sums amounts without their sign
  (internal/domain/account/repository.go:165-177), so only an account without any entry can be
  closed (`CloseIff`, `ZeroBalanceIsNotEnough`).
- The status of an account is checked before the database transaction begins, so an account that
  is frozen in between still receives the entry (`InactiveIff`, `FrozenAccountCanReceive`).
- A failed retry increment is only logged, so an event can wait for ever behind a batch that keeps
  losing its increments (`WaitsForEverIff`).
- Closing does not look at the status: a frozen or closed account can be closed.
- A reader that fetched before a commit can fill the cache after the entry was deleted
  (`StaleIff`, `CurrentIff`, `StaleCanSurvive`).
- The rate limiter is described as a sliding window and is a counter whose time to live every
  request renews; it is at least as strict, sometimes stricter (`StricterOnSteadyTraffic`),
  and the same exactly inside one window (`AgreesIff`).
- A journal is compared before its amounts are rounded, so amounts with more than four decimals
  can be stored unbalanced (`IdentityKeptIff`, `FineAmountsCanUnbalance`).
- The trial balance compares assets with liabilities plus equity and leaves revenue and expense
  out; it passes exactly when those two are equal (`AccountingIdentity`), and a first income
  posting makes it fail (`IncomeFailsTrialBalance`).
- The balance query is documented to lock the account and appends FOR UPDATE to an aggregate,
  which PostgreSQL refuses. Here the code alone gives no running system, so the model takes the
  documented lock: exclusive for each account, held until commit or rollback, with the balance
  read from the rows committed when it is granted.

## Model

| member | source | states |
|---|---|---|
| Serialisability.Serialisable | internal/domain/transaction/service.go:90-160 | for any number of clients, every interleaving of their statements, with aborts, status changes and interest runs anywhere, the committed tables are those of executing the committed operations one at a time in commit order against the atomic reference |
| Serialisability.CommitIsAtomic | internal/platform/database/postgres.go:58-83 | a commit is one atomic operation of the reference, whatever happened since the client began |
| Serialisability.LagIsInterestSince | internal/domain/transaction/repository.go:216-235 | a balance read under the account lock falls behind the ledger by exactly the sum of the interest entries credited since, and is current if and only if no entry has reached the account |
| Overtaking.PromptIff | internal/domain/transaction/service.go:92-97 | a commit leaves the tables that serving the request alone at that moment would leave if and only if no entry has reached its accounts since they were locked |
| Overtaking.SerialIff | internal/domain/transaction/service.go:329-419 | the tables of a run are those of executing its operations one at a time, each alone, running balances included, if and only if no entry overtakes a commit on an account it has locked |
| Overtaking.AloneOnlyIfPrompt | migrations/003_transactions.sql:66-81 | because rows are never taken back, a history in which any operation lagged ends in tables that its serial execution does not reach |
| Serialisability.QuietRunsAreSerial | internal/domain/transaction/service.go:204-274 | runs in which interest is not posted to a locked account are serial |
| EngineExamples.RunningBalanceCanBeStale | internal/domain/interest/service.go:117-128 | a concrete run: interest posted between a deposit's lock and its commit leaves a stored running balance of 10 on an account that stands at 15 |
| Outcomes.FailedIff | internal/domain/transaction/service.go:172-282 | under every interleaving, exactly when each error is a client's outcome: some step of its own met that error's condition (malformed, account missing, account not active, read balance below the amount, key taken, amount or new balance too large for its column), or a call of its own failed |
| Outcomes.FundsStepFailsIff | internal/domain/transaction/service.go:205-214 | a withdrawal or transfer passes the balance check if and only if the amount is at most the balance read under the lock; a deposit always passes |
| RunAlone.AloneIsTheReference | internal/domain/transaction/service.go:56-168 | from every reachable state in which nobody holds a lock or key, a request run alone through all its statements ends with the tables and the exact answer of the one-call reference, and holds nothing |
| RunAlone.AloneEnds | internal/domain/transaction/service.go:284-427 | and it can be run to that end |
| Records.CommitRecords | internal/domain/transaction/service.go:214-270 | what a committed deposit, withdrawal and transfer leave on record, field by field: type, sides, accounts, currency, stored amount, running balances, event |
| Records.ApplyRecords | internal/domain/transaction/service.go:357-415 | the same of the atomic reference |
| Records.AppliesIff | migrations/003_transactions.sql:38-66 | the reference carries a request out if and only if it is well formed, on customer accounts, its key and id are new, the payer has the money, and amount and new balances fit their columns |
| Records.PostsIff | internal/domain/interest/service.go:99-146 | a posting run is carried out if and only if all postings are positive, on customer accounts, and of new and pairwise different ids and keys |
| Records.PostingsRecorded | internal/domain/interest/service.go:117-138 | each posting adds a settled INTEREST header, the credit of the customer and the expense leg with its literal side, both in UGX |
| Records.ServedIsByItself | internal/domain/transaction/service.go:56-168 | the serial bank serves a request as the one-call reference does |
| Reference.UnavailableIff | internal/domain/transaction/service.go:311-326 | the status error is that of the first account that is missing or not active, and says which of the two it is |
| EngineInvariants.NextKeeps | internal/domain/transaction/service.go:329-419 | every step, abort, interest run and status change keeps the protocol invariant: exactly the locks and key its position says, reads that only interest has overtaken, no row of an uncommitted client visible |
| EngineInvariants.RunKeeps | internal/platform/database/postgres.go:58-83 | the protocol invariant holds in every reachable state |
| EngineGuarantees.NoOverdraft | internal/domain/transaction/service.go:205-214 | no customer is overdrawn after any entry of the ledger, in any interleaving, even when interest is posted between a withdrawal's read and its commit |
| EngineGuarantees.InsertOnly | migrations/003_transactions.sql:66-81 | committed transactions, entries and events stay in place in every continuation |
| EngineGuarantees.AlwaysDoubleEntry | internal/domain/transaction/service.go:99-159 | every committed deposit, withdrawal and transfer is SETTLED with exactly one debit and one credit of the same stored amount and currency on different accounts and exactly one outbox event naming them |
| EngineGuarantees.AtMostOncePerKey | migrations/003_transactions.sql:38 | an idempotency key commits at most one transaction in every interleaving |
| EngineGuarantees.TotalsPerCurrency | internal/domain/interest/service.go:117-138 | per currency, total credits exceed total debits by twice the interest paid when the expense leg is a credit, and by nothing when it is a debit |
| EngineGuarantees.BooksBalance | internal/domain/interest/service.go:130-138 | debits equal credits in every currency if and only if the expense leg is a debit or no interest has been paid |
| EngineExamples.InterestCanUnbalance | internal/domain/interest/service.go:119-134 | a concrete run with the literal side: one interest posting leaves credits above debits by twice its amount |
| EngineGuarantees.CommittedRunning | migrations/003_transactions.sql:58-59 | what a commit stores as running balance, for amounts of any scale: the true balance less the sum of the interest entries credited since the lock, plus 0.0001 exactly on a debit's rounding tie; nothing accumulates |
| EngineGuarantees.ExactIffUntouched | internal/domain/transaction/service.go:353-358 | a commit stores true running balances if and only if no entry has reached its accounts since the lock |
| EngineGuarantees.RunningBalances | internal/domain/transaction/service.go:210-214 | in runs without an overtaken commit every stored running balance is the true one, up to one unit on a debit's rounding tie |
| LedgerLaws.ApplyKeepsSolvent | internal/domain/transaction/service.go:353-358 | storage rounding never turns a covered debit into an overdraft |
| LedgerLaws.ApplyKeepsBooked | internal/domain/transaction/service.go:360-418 | one operation keeps double entry for every transaction on record, old and new |
| LedgerLaws.ForeignRowsChangeNothing | internal/domain/transaction/repository.go:156-182 | rows of new transactions change nothing that is read back of an existing one |
| Decimals.RoundDebit | migrations/003_transactions.sql:58-59 | subtracting then rounding keeps one unit too much exactly on a tie, and a covered amount is still covered once rounded |
| Decimals.RoundCredit | migrations/003_transactions.sql:58-59 | adding then rounding adds the stored amount |
| LexOrder.LessIff | internal/domain/transaction/service.go:330-335 | the locking order is character by character: at the first difference the first id ends or has the smaller character |
| Deadlock.NoWaitCycle | internal/domain/transaction/service.go:330-343 | the wait-for graph over account locks and uncommitted keys has no cycle in any reachable state |
| Deadlock.NoDeadlock | internal/domain/transaction/service.go:284-286 | while any client is unfinished, some client can take a step |
| Deadlock.HolderIsAhead | internal/domain/transaction/service.go:330-343 | whoever is waited for either wants a lexicographically greater account or, holding a key, waits for nothing |
| Deadlock.SchedulesAreBounded | internal/domain/transaction/service.go:329-427 | however the clients are scheduled, they take no more steps than a fixed bound |
| Deadlock.EverybodyCanFinish | internal/domain/transaction/service.go:329-427 | from every reachable state all clients can be run to the end without an abort |
| Idempotency.ReplayReturnsTheOriginal | internal/domain/transaction/service.go:66-73 | a well-formed request that arrives after its key was committed commits nothing, whatever everybody else does, and when done has been answered with the original transaction and legs, or with a database error exactly if a call of its own failed |
| Idempotency.RecordStays | internal/domain/transaction/repository.go:132-154 | no action of anybody changes a committed transaction or its legs |
| Answers.AnsweredFromRecord | internal/domain/transaction/service.go:161-168 | in every reachable state a client that has been answered was given the committed transaction of its key with exactly its legs, and its own transaction if that is the one committed |
| StatusChecks.InactiveIff | internal/domain/transaction/service.go:80-87 | a client in its database transaction, and so one about to commit, has an account that is not active if and only if the last status change since its check made it so |
| EngineExamples.FrozenAccountCanReceive | internal/domain/transaction/service.go:80-97 | a concrete run: the deposit passes its check, the account is frozen, the deposit commits |
| TransactionService.Service.Execute | internal/domain/transaction/service.go:56-168 | with no failing call, the tables and the answer of the one-call reference, which the step machine run alone reaches too; with a failing call all or nothing |
| TransactionService.Service.RunInTx | internal/platform/database/postgres.go:58-83 | all of the reference's rows or none, wherever a call fails; insufficient funds exactly when the balance does not cover the amount |
| TransactionService.Service.DepositInTx | internal/domain/transaction/service.go:90-160 | a deposit that succeeds writes what the reference writes; one that no call failed is refused only when the reference refuses |
| TransactionService.Service.WithdrawInTx | internal/domain/transaction/service.go:204-274 | the same for a withdrawal, refused for funds exactly when the balance is below the amount |
| TransactionService.Service.TransferInTx | internal/domain/transaction/service.go:329-419 | the same for a transfer, whichever of the two accounts sorts first |
| TransactionService.Service.WriteAll | internal/domain/transaction/service.go:99-159 | header, two legs, settling and event together are the settled rows, and fail only for a used key or id, an amount the column refuses, or a failing call |
| TransactionService.Service.Create | internal/domain/transaction/repository.go:62-87 | the insert succeeds exactly when key and id are new |
| TransactionService.Service.UpdateStatus | internal/domain/transaction/repository.go:110-130 | only rows with the id change, and only their status |
| TransactionService.Service.GetCurrentBalance | internal/domain/transaction/repository.go:216-235 | the two sums give credits minus debits of the account |
| TransactionService.Service.FetchResponse | internal/domain/transaction/service.go:457-483 | the header on record with exactly its legs, in order |
| TransactionService.Service.CheckAccounts | internal/domain/transaction/service.go:311-326 | the first account that is missing or not active decides the error |
| Ledger.ValidateIff | internal/domain/transaction/service.go:502-566 | a request passes if and only if every field is there, the accounts differ and the amount is a positive number; the same-account error exactly for a transfer between one named account and itself |
| Publisher.TakenWithin | internal/outbox/publisher.go:62-106 | whatever fails and whatever arrives, an eligible event with k older eligible ones is first attempted within n polls, and untouched before, as soon as 50n exceeds 6k plus the retry increments older events lose in those n polls |
| Publisher.AttemptedWithin | internal/outbox/publisher.go:62-106 | so if older events lose at most L increments in the first floor((6k+L)/50)+1 polls, it is attempted in one of them |
| Publisher.WaitsForEverIff | internal/outbox/publisher.go:90-103 | an eligible event is never attempted if and only if, after some polls that do not take it, every poll is a full batch of older events that all lose their retry increment |
| Publisher.NoStarvation | internal/outbox/publisher.go:62-106 | with every failure recorded the bound is floor(6k/50)+1 polls |
| Publisher.TakenIsSent | internal/outbox/publisher.go:90-128 | the poll that takes an event sends it once, and publishes it or counts the failure |
| Publisher.DrainBound | internal/outbox/publisher.go:62-128 | N fresh events are finished after floor(6N/50)+6 polls: each published with at most 5 failures, or failed exactly 6 times, and sent once per attempt |
| Publisher.LostIncrementsStarve | internal/outbox/publisher.go:97-100 | an environment in which that happens: 50 events that lose every increment keep every younger event waiting for ever |
| Publisher.SentBeforePublished | internal/outbox/publisher.go:108-128 | no event is ever marked published before it was sent |
| Publisher.OutboxPublisher.Poll | internal/outbox/publisher.go:90-106 | one poll sends exactly the rows that are unpublished, failed at most 5 times and have fewer than 50 older such rows: each is sent once and published or its failure counted; every other row is left alone |
| Publisher.OutboxPublisher.SelectBatch | internal/outbox/publisher.go:63-88 | the oldest eligible events, at most 50, each once, oldest first, none left out |
| Publisher.OutboxPublisher.Publish | internal/outbox/publisher.go:108-128 | the event counts as sent even when marking it fails |
| InterestArithmetic.ErrorBound | internal/domain/interest/service.go:56-61 | an accrual differs from balance*rate/days, with 360 or 365 days by convention, by at most 0.5*10^-4 + balance*0.5*10^-16 |
| InterestArithmetic.Monotone | internal/domain/interest/service.go:209-216 | accruals grow with balance and with rate |
| InterestArithmetic.Splitting | internal/domain/interest/service.go:56-61 | splitting a balance over two accounts changes the total accrual by at most 0.0001 either way |
| InterestArithmetic.SplittingCanGain | internal/domain/interest/service.go:209-216 | the bound is met at 5% a year on 0.3650 twice against 0.7300 once |
| AccrualRecords.EveryAccrualIsOneDay | internal/domain/interest/service.go:206-216 | after any serial run every accrual on record is its principal's interest for one day of a 365-day year, within the rounding of the two stages |
| AccrualRecords.NextRecords | internal/domain/interest/service.go:39-86 | only an accrual run makes a record, and only for an active savings account, on its balance in the ledger, at the given rate and unposted |
| AccrualRecords.CompletedIff | internal/domain/interest/service.go:50-83 | an accrual run completes if and only if no account with interest due has a record for the date, an amount too large for its column or a failing insert |
| AccrualRecords.CompletedAdds | internal/domain/interest/service.go:50-83 | a run that completes records exactly the listed accounts with interest due |
| AccrualRecords.StoppedAdds | internal/domain/interest/service.go:50-83 | a run that does not complete keeps exactly the records of the accounts before the first whose insert is refused |
| InterestLedger.InterestConservation | internal/domain/interest/service.go:91-150 | after any serial run, failed and repeated accruals included, an account's interest credits equal its posted accruals, and accrued = credited + unposted |
| InterestLedger.CreditedAtMostOnce | migrations/006_interest.sql:54 | each account and date is credited at most once in a run, and exactly the posted ones are |
| InterestLedger.PaidAsPosted | internal/domain/interest/service.go:99-146 | the customer interest legs a run writes are, in order, the accounts and accrued amounts of the slots it posts |
| InterestLedger.PostingComposes | internal/domain/interest/service.go:233-260 | posting through d1 and then d2 writes the same rows in the same order and marks the same accruals as posting through d2 |
| InterestLedger.RepostWritesNothing | internal/domain/interest/service.go:236-237 | posting again changes nothing |
| InterestLedger.SelectionIff | internal/domain/interest/service.go:233-237 | a posting run takes exactly the unposted accruals through its date, by date and then by account id |
| InterestLedger.PostingMarks | internal/domain/interest/service.go:91-150 | a posting run changes nothing, or marks exactly the accruals through its date and alters no accrual otherwise |
| InterestLedger.SelectionSplits | internal/domain/interest/service.go:236-237 | the later selection is the earlier one followed by what is selected after posting it |
| Accruals.SortedSplit | internal/domain/interest/service.go:237 | sorting dates before and after a cut separately gives the same order as sorting them together |
| InterestService.Service.AccrueDaily | internal/domain/interest/service.go:39-86 | the loop without a transaction does what the serial reference does, at the current savings rate, for exactly the accruing accounts, each once, in whatever order they come, keeping what was inserted before a failure |
| InterestService.Service.PostAccruedInterest | internal/domain/interest/service.go:91-150 | one transaction posts and marks the whole selection or changes nothing, and without a failing call succeeds exactly when ids and keys are new |
| InterestService.Service.PostAll | internal/domain/interest/service.go:99-146 | the loop that completes has posted and marked the whole selection, and with no failing call it stops early only when an id or a key is not new |
| InterestService.Service.GetUnpostedAccruals | internal/domain/interest/service.go:233-260 | exactly the unposted accruals up to the date, ordered by date and account |
| InterestService.Service.GetActiveSavings | internal/domain/interest/service.go:154-186 | exactly the active savings accounts with a positive balance, each once |
| InterestService.Service.GetCurrentRate | internal/domain/interest/service.go:188-207 | the rate of a row of the product effective on the date such that no effective row starts later, or none if and only if no row is effective |
| Bank.ClosedStaysEmpty | internal/domain/account/service.go:204-211 | once closed, in every serial continuation an account stays closed, has no entry and a zero balance |
| Bank.CloseIff | internal/domain/account/repository.go:163-177 | closing succeeds if and only if the account never had an entry, because the balance sums amounts without their sign |
| Bank.ZeroBalanceIsNotEnough | internal/domain/account/repository.go:163-177 | a concrete run from the empty bank: create, deposit 10, withdraw 10; the balance is zero and closing is refused |
| AccountProtocol.StaleIff | internal/domain/account/service.go:111-131 | under every interleaving of reads, stores, commits, deletes and expiries, a cached row found after a delete was stored after it, is older than that commit if and only if it was fetched before the commit, and is the table's row if fetched after the newest commit |
| AccountProtocol.StaleCanSurvive | internal/domain/account/service.go:198-199 | a concrete run: everybody has finished, the freeze has deleted the cache entry, and the cache still says ACTIVE |
| AccountProtocol.CurrentIff | internal/domain/account/service.go:121-131 | in every reachable state, failed deletes included, a cached row is the table's row if and only if it was fetched after the account's last commit |
| AccountProtocol.ToldIff | internal/domain/account/service.go:111-131 | in every reachable state a reader has been told a row never ahead of the table, the table's row if the versions are equal, and the table's row if and only if it was fetched after the account's last commit |
| AccountProtocol.CacheNeverAhead | internal/domain/account/service.go:121-131 | a cached version never exceeds the row's, and equal versions mean equal rows |
| AccountProtocol.VersionCountsEvents | internal/domain/account/repository.go:142-161 | in every reachable state an account's version is the number of its created, frozen and closed events |
| AccountProtocol.NoVersionConflict | internal/domain/account/repository.go:157-159 | the version-conflict error is unreachable: the row lock spans read to commit |
| AccountProtocol.ClosedForGood | internal/domain/account/service.go:204-245 | CLOSED is never left, under any interleaving |
| AccountProtocol.NextKeeps | internal/domain/account/service.go:156-193 | every action keeps the account protocol's invariant |
| AccountOutcomes.CommitWrites | internal/domain/account/service.go:55-252 | what each commit writes: a new active row, or the same row frozen, and then it was active, or closed, one version on; and its event |
| AccountOutcomes.OnlyCommitsWrite | internal/domain/account/service.go:55-252 | no other action of anybody writes to the tables |
| AccountOutcomes.FailedIff | internal/domain/account/service.go:111-252 | under every interleaving a client has failed with an error if and only if one of its own steps met that error's condition, or a call of its own failed: a close is refused for its balance first and for nothing but a missing account then, a freeze for a missing or inactive account, a read for a missing one |
| AccountService.AloneIsTheService | internal/domain/account/service.go:213-250 | the protocol's steps run alone freeze or close the row with its version and event as the service operation does, and delete the cache entry |
| AccountService.OpenedAlone | internal/domain/account/service.go:55-108 | an opening run alone leaves the active account and its event |
| AccountService.ReadAlone | internal/domain/account/service.go:111-131 | a read run alone is answered the cached row on a hit, the table's row, which it then caches, on a miss, and not found without a row |
| AccountService.RefusedAlone | internal/domain/account/service.go:156-252 | run alone, a close with a balance, a freeze of an inactive account and either on a missing one end with their error and change nothing |
| AccountService.Service.CreateAccount | internal/domain/account/service.go:55-108 | succeeds exactly for a non-empty customer that exists, a listed type and currency, a storable limit and no failing call; the row with every field and its event together, or neither; version equals event count |
| AccountService.Service.FreezeAccount | internal/domain/account/service.go:156-200 | succeeds exactly for an existing active account and no failing call; new row, event and cache; never a version conflict; keeps the cache coherent when the delete works |
| AccountService.Service.CloseAccount | internal/domain/account/service.go:204-252 | succeeds exactly for an existing account whose unsigned sum is zero and no failing call, from any status; new row, event and cache |
| AccountService.Service.GetAccount | internal/domain/account/service.go:111-131 | cached row, or table row which is then cached; while the cache is coherent the answer is the table's row |
| AccountService.Service.GetBalance | internal/domain/account/repository.go:163-177 | unsigned sum of the entries, total of the outstanding holds, and their difference |
| AccountService.HeldTotalOfMore | internal/domain/account/repository.go:163-177 | a hold counts unless it is on another account, released, or expired by now |
| GeneralLedger.AccountingIdentity | internal/domain/ledger/service.go:101-120 | on the seeded chart, after any posts of 4-decimal amounts, successful or aborted, assets + expenses = liabilities + equity + revenue, so the trial balance passes exactly when revenue equals expense |
| GeneralLedger.IdentityIffBalanced | internal/domain/ledger/repository.go:137-154 | on a conventional chart the identity holds if and only if stored debits equal stored credits |
| GeneralLedger.EquationIsNetDebits | internal/domain/ledger/repository.go:137-154 | the grouped signed sums differ by exactly stored debits minus stored credits |
| GeneralLedger.IdentityKeptIff | internal/domain/ledger/service.go:43-55 | for amounts of any scale a post keeps the identity if and only if debits and credits gain the same from rounding |
| GeneralLedger.FineAmountsCanUnbalance | migrations/002_ledger.sql:67 | a journal of two debits of 0.00015 and a credit of 0.0003 is posted to the opening books and breaks the accounting identity |
| GeneralLedger.KeysBookedOnce | migrations/002_ledger.sql:48-53 | from books in which ids, references and keys are pairwise different, they are so after any posts: no key is booked twice |
| GeneralLedger.PostedIff | internal/domain/ledger/service.go:38-91 | a journal is posted if and only if it has lines, its debits equal its credits before rounding, its id, reference and key are new, and every line has a known side and account and a storable amount; otherwise nothing changes |
| GeneralLedger.PostRecords | internal/domain/ledger/service.go:57-91 | what a posted journal adds: its header, its lines in order with rounded amounts, and an event with the exact totals |
| GeneralLedger.SeedingStops | internal/domain/ledger/service.go:127-163 | an insert that fails ends the seeding with what precedes it; where the account is there already, nothing is inserted and nothing fails |
| GeneralLedger.IncomeFailsTrialBalance | internal/domain/ledger/service.go:117-120 | a balanced posting of cash against interest income is accepted, keeps the identity and fails the trial balance check |
| GeneralLedger.ClassTotalOfRow | internal/domain/ledger/repository.go:141-149 | one more row changes the signed total of its own account's class, by its amount in the normal direction, and of no other class |
| GeneralLedger.SeedingKeepsConventional | internal/domain/ledger/service.go:127-163 | seeding that fails part way and is repeated keeps codes unique and sides conventional, and removes nothing |
| GeneralLedger.SeedingCompletes | internal/domain/ledger/service.go:127-163 | seeding without a failure leaves every standard account in place and loses none |
| GeneralLedger.Service.PostJournalEntry | internal/domain/ledger/service.go:38-91 | the journal is posted whole or not at all, with the outcome the reference says |
| GeneralLedger.Service.CreateJournalEntry | internal/domain/ledger/repository.go:92-111 | refused exactly when id, reference or key is taken |
| GeneralLedger.Service.CreateGLEntry | internal/domain/ledger/repository.go:113-132 | the rounded row, refused exactly for an unknown side or account or an amount the column refuses |
| GeneralLedger.Service.GetTrialBalance | internal/domain/ledger/service.go:95-123 | every account's balance in its normal direction, and the verdict assets = liabilities + equity |
| GeneralLedger.Service.SeedChartOfAccounts | internal/domain/ledger/service.go:127-163 | exactly the missing standard accounts are added, in order, up to a failing insert |
| RateLimiter.Limiter.AllowRequest | internal/platform/cache/redis.go:76-89 | allowed if and only if the request is among the first `limit` of its busy period; every request is counted |
| RateLimiter.AcceptedWithinLimit | internal/platform/cache/redis.go:76-89 | accepting at time t implies at most `limit` requests in (t - window, t] |
| RateLimiter.NoWindowExceedsLimit | internal/platform/cache/redis.go:76-89 | no half-open window accepts more than `limit` requests |
| RateLimiter.PositionInBusyPeriod | internal/platform/cache/redis.go:76-89 | each busy period accepts exactly its first `limit` requests |
| RateLimiter.BusyPeriodIsMaximal | internal/platform/cache/redis.go:81-82 | a busy period has gaps shorter than the window and is preceded by a gap of at least the window |
| RateLimiter.AgreesIff | internal/platform/cache/redis.go:76-89 | the decision is that of a sliding-window log for every limit if and only if the busy period began inside the current window |
| RateLimiter.StricterOnSteadyTraffic | internal/platform/cache/redis.go:76 | steady traffic within the limit of every window is refused: the counter is strictly stricter than the sliding window its comment promises |

## Left out

- TransactionService.Service.Execute: with a failing call only all-or-nothing and the committed rows are stated, not which error is reported.
- InterestLedger.InterestConservation: serial runs only; two posting runs at once both select the same unposted accruals, since the selection takes no lock.
- InterestLedger.PostingComposes: stated for ids and keys chosen per accrual and not yet used, as generated ids are.
- Bank.ClosedStaysEmpty: serial runs only; interleaved, a request that has passed its status check is not stopped by a freeze or a close (`InactiveIff`, `FrozenAccountCanReceive`).
- Publisher.DrainBound: no new events while draining, and every failed marking is counted; `AttemptedWithin` allows arrivals and lost increments.
- TransactionService.Service.GetCurrentBalance: the lock is in the step machine; the class is one caller's view.
- Serialisability.Serialisable: key and status checks are single reads of committed rows; PostgreSQL's snapshots are otherwise not modelled.
- A poll whose query or scan fails sends nothing and is not modelled; neither is an accrual run whose account or rate query fails.
- A commit call that fails is an abort; a connection that breaks after the commit took effect is an abort of the read-back.
- A request that loses the race for its key reports a database error, as in the code; its retry is the replay.
- UUIDs, account numbers and reference numbers are fresh opaque ids; names, descriptions, payload text and timestamps are not modelled, except their order.
- Column-name and id-type mismatches between the Go statements and the schema, for example text ids in UUID columns or the cash account's missing row, are not modelled.
- Parsing and printing of decimals and JSON are library code; a malformed amount is a case of the request.
- Currency codes are not padded to CHAR(3), and currencies of an account and a request are not compared, as in the code.
- Cache expiry after five minutes is an action that can happen at any time; cache errors are outcomes of the cache steps.
- Limiter errors of Redis, where the caller lets the request pass, are not modelled; the counter and its renewal are one step, as the pipeline sends them.
- The seeding check for an existing account can itself fail; only failing inserts are modelled.
- Account holds beyond the balance read, because withdrawals do not consult them.
- The distributed lock, which nothing uses.
- Compliance screening, alerts, audit log, statement paging, idempotency middleware: branches and queries that one reading settles.
- HTTP handlers, authentication, configuration, telemetry and start-up.
