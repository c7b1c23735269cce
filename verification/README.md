# The wallet engine, verified

A Dafny model of jungle-wallet-go: a wallet service that processes wagers (BET, WIN, LOSS, REFUND, ROLLBACK) from
HTTP and SQS against PostgreSQL, and proofs about every run of it.

`dafny verify dfyconfig.toml` checks everything.

## What is modelled

**The store.** `Postgres.Database` holds what is committed: wallets, wager transactions with their three unique
indexes, ledger, retry rows and outbox. `Postgres.Repositories` is one open SQL transaction with its repositories; a
failed statement leaves it aborted. `UnitOfWork.Pool` opens such transactions, commits, rolls back and retries.

**The use cases**, statement by statement, as methods over those repositories: processing a wager
(`AppProcess`), retrying a parked reversal (`AppResolve`), opening a wallet (`AppOpen`), one SQS delivery
(`InboxTransaction`, `Consumer`), the reference worker's tick (`ReferenceWorker`), the outbox publisher's tick
(`OutboxPublisher`), listing and reconciling a ledger (`Queries`). Each method is proved to do what a function of the
tables says (`Handle`, `Resolve`, `Open`, `Consume`, `Within`, `Ticked`, ...), and the theorems are about those functions.

**Runs.** `Runs` lets any number of requests, resolver executions, openings and leases commit one after the other.
`Locking` splits requests and resolver executions into their single statements instead, with row locks, keys in flight,
unlocked early reads and deaths at any point; `Interleavings` proves that nothing but runs of the first kind comes out,
and `Solo` and `Schedules` that every run of the first kind does. `Deliveries` puts messages and the inbox on top of that
machine, `Leases` times and leases. `Consumer`, `Outbox` and `LockOrder` are state machines of their own for redelivery,
publishing and waiting.

**What is proved of every run**, in the order of the files:

* money: exact checked arithmetic, the decimal parser accepts exactly the amounts it should, printing and parsing are inverse;
* `Invariants`, `Settlement`, `Openings`, `Runs`: one invariant of all committed states: identities and indexes, the shape
  of each row in each status, at most one processed reversal per reference, ledger chains from zero to the balance, a
  one-to-one match between settled movers and ledger lines, and a complete event log;
* `Outcomes`, `Answers`: what every request, delivery, execution and opening is answered and writes, told by its fields
  and the committed rows alone;
* `Conservation`: each balance is what the wallet's history is worth, reversals of reversals included;
* `History`, `Replays`: nothing is taken back, a settled request is answered the same way for ever, duplicates change nothing;
* `Parking`, `Attempts`, `ReferenceWorker`: parked reversals settle within their attempts, in serial runs and in every
  schedule, and settling late equals settling on arrival;
* `LockRefinement`, `Interleavings`, `Progress`, `LockOrder`: serializability in lock order, and freedom from deadlock;
* `Overlaps`, `Leases`: what overlapping executions of one row can do, exactly when, and how leases rule it out;
* `UnitOfWork`, `Consumer`, `Deliveries`, `Outbox`, `OutboxPublisher`: exactly-once effects over at-least-once delivery
  and publishing;
* `EntryIds`, `Queries`, `EventLog`: every ledger can be listed, its pages are the sorted ledger, reconciliation finds no
  difference, events rebuild the balance;
* `Guarantees`: the main results once more, for every state that any interleaving commits from an empty database;
* `Stories`: concrete runs from an empty database, among them one for each exception below.

**Where a property is false of the code**, the code is kept, the exact condition is proved, and a lemma meets the exception:

* multiplication refuses one product that fits (`MulChecked`; `MulMissesMinimum`: 2 times -2^62);
* a negative amount does not survive printing and parsing (`PrintThenParse`; `PrintOfMinimum`);
* a parked credit that overflows int64 fails while the balance leaves no room, instead of being rejected
  (`NextExecution`, `OverflowPasses`; `OverflowHappens` reaches such a state and `OverflowPassed` one where the same row
  is paid out after all);
* a replay repeats the money exactly only in the wallet's currency (`FirstAnswerRepeats`; `CurrencyChanges`);
* a settled row can be overwritten: by an execution that read it while it was parked, finds no retry row any more and
  rejects what it read, and by nothing else (`OnlyStrikesTouchSettled`; `OverlapHappens` is such a schedule from an empty
  database). It takes two overlapping executions of one row, and executions that arrive under a lease of their row and end
  before it never overlap (`LeasesKeepApart`);
* the reference worker's tick resolves only rows it has leased, unless an attempt at its claim was rolled back at the
  commit: the ids that attempt collected are kept (`ResolvesOnlyLeased`; `ResolvesUnleased`).

**Where the code and ARCHITECTURE.md differ**, the model follows the code. Line 70 lists LOSS and OPENING as references that
answer REFERENCE_NOT_REVERSIBLE: in the code a LOSS always fails the field or amount comparison first, an OPENING is
never found and the request waits, and the code is left for ROLLBACK and for REFUND of a WIN or REFUND
(`NeverReversed`). Line 123 promises FIFO order per wallet: the consumer goes on to a group's next message after a
failure, so no order of deliveries is assumed anywhere.

UUIDs are naturals, zero being the nil UUID; the supply hands out new ones. The canonical hash and the hash of a
message body are taken to be injective, so the hashed content stands for them. Times are integers (nanoseconds).

## Model

| member | source | states |
|---|---|---|
| DomainMoney.AddChecked | internal/domain/money/money.go:222-230 | succeeds exactly when the integer sum fits int64, and is that sum; the guards themselves stay in int64 |
| DomainMoney.SubChecked | internal/domain/money/money.go:232-240 | the same for the difference |
| DomainMoney.MulChecked | internal/domain/money/money.go:242-270 | every success is exact; fails on every product outside int64 and, of those inside, only on the minimum written as a number above one times a negative one |
| DomainMoney.MulMissesMinimum | internal/domain/money/money.go:242-270 | 2 times -2^62 is refused although it fits, and -2^62 times 2 is not |
| DomainMoney.Money.Add | internal/domain/money/money.go:71-80 | sums amounts of one currency, and fails on overflow or on two currencies |
| DomainMoney.Money.Sub | internal/domain/money/money.go:82-91 | the same for differences |
| DomainMoney.ParseUintStrict | internal/domain/money/money.go:202-217 | the digit loop returns the numeral's value, and fails exactly when that exceeds int64 |
| DomainMoney.ParseDecimalToMinor | internal/domain/money/money.go:141-200 | accepts exactly one or more digits, optionally a dot and at most two digits, worth at most 2^63-1 minor units, and returns that worth |
| DomainMoney.AmountExactly | internal/domain/money/money.go:141-217 | any whole digits, alone or with a dot and at most two more, parse to that many hundredths if int64 holds them; every other text is refused |
| DomainMoney.ParsedTexts | internal/domain/money/money.go:141-217 | "12.34", "5" and "0.5" are 1234, 500 and 50 |
| DomainMoney.ParseParts | internal/domain/money/money.go:161-200 | the integer and fraction parts combine to the value in minor units, or fail when it overflows |
| DomainMoney.Parse | internal/domain/money/money.go:38-48 | amount and currency parse together, each failing on its own terms |
| DomainMoney.NormalizeCurrency | internal/domain/money/money.go:128-139 | three upper-case letters are kept; what is accepted is the trimmed upper-case text |
| DomainMoney.CurrencyExactly | internal/domain/money/money.go:128-139 | three letters in any case with any white space around are that currency in upper case; every other text is refused as INVALID_INPUT |
| DomainMoney.PrintThenParse | internal/domain/money/money.go:56-69 | parsing what String prints gives the amount back if and only if it is not negative; a printed negative amount is refused |
| DomainMoney.SameAmountSamePrint | internal/domain/money/money.go:56-69 | two texts parse to one amount exactly when they print alike: printing is canonical |
| DomainMoney.PrintOfMinimum | internal/domain/money/money.go:56-69 | the minimum int64 prints with two minus signs, since its negation wraps around |
| DomainMoney.PrintOfNegative | internal/domain/money/money.go:56-69 | every other negative amount prints as its magnitude behind one minus sign |
| DomainWagering.HashIdentifiesPayload | internal/domain/wagering/transaction.go:55-78 | equal canonical hashes mean equal requests but for key, correlation id and TTL |
| DomainWagering.SameHashExactly | internal/domain/wagering/transaction.go:55-78 | two requests hash alike if and only if they agree in the nine business fields |
| DomainWagering.TransitionsAreForward | internal/domain/wagering/transaction.go:291-363 | no transition leaves a terminal status, repeats a status or returns to PENDING |
| DomainWallet.NewLedgerEntry | internal/domain/wallet/wallet.go:31-86 | builds a line exactly when ids are set and amounts add up to a non-negative balance in one currency |
| DomainWallet.Wallet.Credited | internal/domain/wallet/wallet.go:163-183 | succeeds exactly for a positive amount in the wallet's currency that fits; one sound line, one version further |
| DomainWallet.Wallet.Debited | internal/domain/wallet/wallet.go:185-212 | succeeds exactly for a positive covered amount; INSUFFICIENT_FUNDS exactly when it is not covered |
| DomainWallet.Create | internal/domain/wallet/wallet.go:113-132 | a wallet at version 1 exactly when the ids are set and the balance is not negative |
| Postgres.Repositories.InsertWallet | internal/infra/postgres/wallet_repo.go:24-37 | one wallet per id and per player and currency; a duplicate is a conflict and aborts the transaction |
| Postgres.Repositories.UpdateWallet | internal/infra/postgres/wallet_repo.go:51-65 | writes balance, version and time only when the stored version is the expected one |
| Postgres.Repositories.TryInsertIdempotency | internal/infra/postgres/transaction_repo.go:92-128 | inserts, or returns the row holding the key; a taken external id is a conflict that aborts the transaction |
| Postgres.Repositories.UpdateTransaction | internal/infra/postgres/transaction_repo.go:50-66 | overwrites five columns by id whatever the stored status; a second processed reversal of one reference violates the partial index |
| Postgres.Repositories.InsertLedger | internal/infra/postgres/ledger_repo.go:22-36 | appends a line unless the wallet has one for that transaction |
| Postgres.Repositories.InsertInbox | internal/infra/postgres/inbox_outbox_repo.go:24-51 | records a message id once, and otherwise returns the body recorded first |
| Postgres.Repositories.MarkCompleted | internal/infra/postgres/inbox_outbox_repo.go:53-63 | completes the inbox row, and fails once the transaction is aborted |
| AppProcess.Prepare | internal/app/process_wager.go:153-205 | what is prepared is a PENDING external row with the given id and the request's hash |
| Answers.PreparedExactly | internal/app/process_wager.go:153-205 | prepared if and only if key, kind, amount, ids, texts and, for a reversal, the reference are as they must be; the code of every refusal and every column of the row |
| AppProcess.ExecuteInTx | internal/app/process_wager.go:69-142 | the whole use case returns and writes what Handle says; a conflict writes nothing, and aborts exactly when the INSERT refused it |
| AppProcess.ReplayOrConflict | internal/app/process_wager.go:207-229 | answers from the stored row when the hash is the same, else conflict |
| AppProcess.ProcessSimple | internal/app/process_wager.go:231-250 | BET, WIN and LOSS carry out the landing decided for them |
| AppProcess.ProcessReversal | internal/app/process_wager.go:252-306 | the checks in their order carry out the landing decided on the reference |
| AppProcess.ParkPendingReference | internal/app/process_wager.go:308-343 | the row waits with a retry row due in a second and a pending event |
| AppProcess.ApplyDebitWithRef | internal/app/process_wager.go:358-382 | debits, or rejects with the given code when not covered |
| AppProcess.ApplyCreditWithRef | internal/app/process_wager.go:396-416 | credits; an overflow is an error, not a rejection |
| AppProcess.ApplyLoss | internal/app/process_wager.go:418-448 | processed with the current balance, nothing moves |
| AppProcess.CommitMovement | internal/app/process_wager.go:450-504 | wallet, line, row, retry row and two events together; the version guard cannot fail for the wallet just read |
| AppProcess.RejectAndPersist | internal/app/process_wager.go:506-540 | rejected with the code and the balance seen, one event, no retry row |
| AppResolve.ResolveInTx | internal/app/resolve_pending.go:28-122 | one execution does what Resolve says of the tables |
| AppResolve.ResolveLocked | internal/app/resolve_pending.go:66-122 | under the lock: another attempt, or the landing decided on the reference |
| AppResolve.ScheduleRetry | internal/app/resolve_pending.go:124-138 | one attempt more, due after 2^min(attempts,8) seconds, deadline kept |
| AppResolve.RejectNotFound | internal/app/resolve_pending.go:140-152 | rejects with the stored wallet's balance, or fails without a wallet |
| AppResolve.RejectWithCode | internal/app/resolve_pending.go:154-183 | rejected with the code, one event, retry row gone |
| AppOpen.OpenInTx | internal/app/open_wallet.go:33-123 | opens what Open says: wallet and, with money, one opening row, line and two events |
| AppOpen.RecordOpening | internal/app/open_wallet.go:63-116 | the rows and events of a positive opening, or a unique violation |
| Answers.OpenedExactly | internal/app/open_wallet.go:33-123 | refused exactly without a player, for a negative amount or for a second wallet of player and currency, each with its code; otherwise every column of the wallet, the opening row, its line and its two events |
| Invariants.ExternalLookup | internal/infra/postgres/transaction_repo.go:85-89 | the lookup finds a row exactly when an external row has that provider and external id |
| Invariants.KeyLookup | internal/infra/postgres/transaction_repo.go:79-83 | likewise for the idempotency key |
| Invariants.InsertKeeps | internal/infra/postgres/transaction_repo.go:92-128 | inserting a prepared row with free keys keeps the invariant with that row open |
| Settlement.WriteSucceeds | internal/app/process_wager.go:450-504 | under the invariant no landing is refused by the ledger's or the reversal index's uniqueness, or by a transition |
| Settlement.LandingKeeps | internal/app/process_wager.go:308-540 | every landing the decision can produce succeeds and keeps the whole invariant with nothing left open |
| Openings.OpenKeeps | internal/app/open_wallet.go:33-123 | opening succeeds exactly when player, amount and uniqueness allow it, and keeps the invariant |
| Runs.SettleKeeps | internal/app/process_wager.go:103-142 | a new request succeeds unless its movement errs, and keeps the invariant |
| Runs.ResolveCases | internal/app/resolve_pending.go:28-122 | a parked row has its wallet and retry row, matches the wallet's player and currency, and each execution reschedules, lands or errs |
| Runs.Reachable | internal/app/process_wager.go:53-65 | the invariant holds of whatever any run commits from an empty database |
| Outcomes.IndexIsRows | internal/infra/postgres/transaction_repo.go:203-209 | the reversal query answers yes exactly when some processed REFUND or ROLLBACK refers to the row |
| Guarantees.Refusals | internal/app/process_wager.go:79-117 | a prepared request is a conflict, finds no wallet, or overflows if and only if the committed rows say so; nothing else fails |
| Answers.RequestTells | internal/app/process_wager.go:308-540 | every column, ledger line, retry row and event envelope a new request leaves, with the ids, the correlation id and the time it was handed, and nothing else |
| Answers.LandingTells | internal/app/process_wager.go:450-540 | the same for any landing, of a new row or a parked one |
| Stories.LossAndRollbackProcessed | internal/app/process_wager.go:231-306 | from an empty database a LOSS and a ROLLBACK of a BET are processed, and the balance is the opened one again |
| Guarantees.NeverReversed | internal/app/process_wager.go:262-306 | an OPENING is never found, a LOSS fails the comparison, a ROLLBACK is never reversed, a REFUND reverses only a BET; NOT_REVERSIBLE means nothing else |
| Conservation.MoveWorths | internal/app/process_wager.go:450-504 | a movement changes the total worth of its wallet's rows by exactly what its ledger line moves |
| Conservation.RunConserves | internal/app/process_wager.go:450-504 | every run keeps each balance equal to the worth of its wallet's history |
| History.RunForward | internal/domain/wagering/transaction.go:338-363 | over any run rows keep identity, terminal rows and log entries stay, versions and attempts never fall, deadlines and indexes hold |
| Guarantees.ReversedForEver | internal/app/process_wager.go:287-291 | a reversed row stays reversed by the same reversal, even when that one is rolled back |
| Guarantees.FirstAnswerRepeats | internal/app/process_wager.go:585-591 | the first answer is repeated for ever; the same Money exactly when the request's currency is the wallet's |
| Stories.CurrencyChanges | internal/app/process_wager.go:585-591 | a BET in USD on a BRL wallet is rejected with the BRL balance and replayed with the same number of USD |
| Replays.ErasureKeepsStore | internal/app/process_wager.go:79-117 | dropping durable duplicates from a run leaves the same store |
| Guarantees.DurableForEver | internal/app/process_wager.go:79-98 | a known key or external id is known for ever |
| Parking.Countdown | internal/app/resolve_pending.go:70-81 | over any run attempts count the row's executions and stay below the maximum until it is terminal |
| Guarantees.WaitsExactly | internal/app/resolve_pending.go:70-83 | while the reference is missing or unsettled an execution tries again if and only if attempts and deadline last, after the doubling pause, and gives up with REFERENCE_NOT_FOUND otherwise; once settled, none leaves the row waiting |
| Answers.ExecutionExactly | internal/app/resolve_pending.go:66-183 | the same with everything either of them writes |
| Answers.NothingToResolve | internal/app/resolve_pending.go:34-41 | an unknown row is an error, a row that does not wait is left alone |
| Answers.WithoutRetryRow | internal/app/resolve_pending.go:43-50 | a parked row without a retry row is rejected with the stored balance, or fails without its wallet |
| Attempts.GivesUpLate | internal/app/resolve_pending.go:70-81 | whatever interleaves, a commit ends an unsettled reversal only after its deadline or with its last attempt |
| Guarantees.NeverGivenUpEarly | internal/app/resolve_pending.go:70-81 | in any schedule a row that ends as REFERENCE_NOT_FOUND was ended by an execution after its deadline or by its last |
| Attempts.OwnCommitCounts | internal/app/resolve_pending.go:66-122 | whatever interleaves, a committed execution uses exactly one attempt while attempts and deadline last, or leaves the row terminal |
| Attempts.ScheduleCounts | internal/app/resolve_pending.go:70-81 | after any schedule a row that was parked is terminal, or has used one attempt per execution committed since, overtaken ones included, and stays below the maximum |
| Attempts.SettlesInEverySchedule | internal/app/resolve_pending.go:70-81 | once as many executions have committed as attempts were left, the row is terminal and no longer retried, in any schedule |
| Guarantees.DeadlineSettles | internal/app/resolve_pending.go:70-81 | past the deadline the next execution settles it, in any later state |
| Parking.TotalPause | internal/app/resolve_pending.go:124-138 | n scheduled retries wait 2^(min(n,8)+1) - 2 + 256 max(0, n-8) seconds in total |
| Parking.DueTimes | internal/app/resolve_pending.go:124-138 | a row rescheduled whenever it falls due is due after exactly those pauses |
| Guarantees.ParkingOnlyAdds | internal/app/process_wager.go:308-343 | parking adds exactly the row, its keys, its retry row and its event |
| LockRefinement.DecisionKept | internal/app/process_wager.go:262-306 | a commit on another wallet leaves a decision standing, or settles its reference there |
| LockRefinement.SoundStays | internal/app/process_wager.go:100-142 | another execution's commit leaves everything an execution has read valid |
| LockRefinement.RequestCommits | internal/app/process_wager.go:450-504 | a request's commit is its serial step, or parks because its reference was settled elsewhere after it looked |
| LockRefinement.ResolverCommits | internal/app/resolve_pending.go:52-120 | the same for a resolver execution |
| Commits.NewRowIsFaithful | internal/app/process_wager.go:450-540 | a new row's landing keeps the invariant, takes nothing back, and keeps balances and hashes true to the rows |
| Commits.ParkedRowIsFaithful | internal/app/resolve_pending.go:66-120 | the same for a parked row |
| Solo.WorkAlone | internal/app/process_wager.go:69-142 | an execution nobody obstructs, statement by statement, does exactly its serial step and leaves all others as they are |
| Guarantees.SuppliedRunsAreReached | internal/app/process_wager.go:53-65 | every serial run supplied with new UUIDs is committed by some schedule of the statements |
| Interleavings.Serializable | internal/infra/postgres/wallet_repo.go:45-65 | any schedule leaves the tables of the committed executions run one by one, on each wallet in lock order; no commit is ever refused, by the version guard or by an index of what it writes; the branch without a retry row is dead, and nothing committed is taken back |
| Interleavings.SingleWalletIsRun | internal/app/process_wager.go:100-112 | on one wallet the interleaved run is exactly a run of the use cases in lock order |
| Interleavings.UnlockedRejectOverwrites | internal/app/resolve_pending.go:43-50 | an execution in the unlocked branch turns a settled reversal into a rejected one and leaves its ledger line |
| Overlaps.StrikeOverwrites | internal/app/resolve_pending.go:140-183 | what that branch does to a terminal row: five columns, its entry in the reversal index and one event more, nothing else |
| Overlaps.OnlyStrikesTouchSettled | internal/app/resolve_pending.go:28-64 | without any guard between executions of one row: an action changes a terminal row or its events if and only if it advances an execution in the branch without a retry row whose wallet exists and whose row, read as parked, is terminal by now; every other action keeps the invariant |
| Overlaps.SafeUntilStruck | internal/app/resolve_pending.go:52-64 | overlapping executions keep the invariant and every settled row until one of them does that |
| Overlaps.ResolverCommitsAnyhow | internal/app/resolve_pending.go:66-138 | a commit decided on a stale retry row still keeps the invariant and takes nothing settled back |
| Overlaps.OverlapOverwrites | internal/app/resolve_pending.go:34-64 | from any committed state with a parked row that would settle, two overlapping executions can end with the settled reversal rejected, its ledger line kept and its index entry gone |
| Stories.OverlapHappens | internal/app/resolve_pending.go:34-64 | such a schedule from an empty database, breaking the invariant |
| Leases.LeasesKeepApart | internal/transport/worker/reference.go:70-98 | if each resolver execution arrives under a lease of its row and is over before the lease ends, no two executions of one row are ever under way together, and the guard of the machine holds by itself |
| Leases.WritesOwnRetry | internal/app/resolve_pending.go:124-138 | no execution writes another row's retry row |
| Progress.ClearAdvances | internal/app/process_wager.go:100-142 | an execution that has all it needs gets one statement further and stays clear |
| Progress.NeverStuck | ARCHITECTURE.md:117-119 | after any schedule of the statements some continuation without deaths brings every execution to its end, in at most seven statements each |
| LockOrder.EveryUseCaseAscends | internal/app/process_wager.go:100-112 | every use case takes its locks in one order |
| LockOrder.NoWaitCycle | internal/transport/worker/consumer.go:278-292 | no chain of waits closes |
| LockOrder.NeverDeadlocked | ARCHITECTURE.md:117-119 | after any schedule of any executions nobody waits in a circle, and if anyone runs someone can go on |
| ReferenceWorker.Tick | internal/transport/worker/reference.go:70-99 | claims in a transaction that may fail and be retried; a failed claim ends the tick before any work; then each collected row is resolved in turn whatever fails; the invariant is kept |
| ReferenceWorker.Claim | internal/transport/worker/reference.go:74-86 | up to three attempts at the claim, collecting the ids of each whose statement returned |
| ReferenceWorker.ClaimEnds | internal/transport/worker/reference.go:74-86 | which endings of the claim lease, which collect ids, and what each reports |
| ReferenceWorker.ClaimGoesOn | internal/infra/postgres/uow.go:28-43 | the claim is tried again exactly after a deadlock or a serialization failure, while attempts last |
| ReferenceWorker.EveryRowIsResolved | internal/transport/worker/reference.go:87-97 | every collected row is resolved, on the tables the row before it left, whatever became of that one |
| ReferenceWorker.ClaimIsLease | internal/infra/postgres/transaction_repo.go:211-248 | the claim is one lease step of the runs: at most twenty due rows move their due time |
| ReferenceWorker.ClaimTakesEarliest | internal/infra/postgres/transaction_repo.go:215-234 | of the due rows exactly the claimed ones stop being due; what is left is due no earlier unless others had it locked, and with nothing locked a short batch means nothing is left |
| ReferenceWorker.ClaimedIds | internal/transport/worker/reference.go:73-86 | the ids a tick goes on with are those of attempts rolled back at their commit, in order, and then those of the attempt that committed |
| ReferenceWorker.ResolvesOnlyLeased | internal/transport/worker/reference.go:73-98 | a tick resolves only rows its claim has leased exactly when the last attempt took again whatever rolled back ones had taken |
| ReferenceWorker.ResolvesUnleased | internal/transport/worker/reference.go:73-98 | a claim rolled back at its commit can leave the tick resolving a row that another worker has leased |
| Guarantees.LeasesAreSeparated | internal/transport/worker/reference.go:70-98 | between two leases of a row an execution committed or the first lease ran out |
| InboxTransaction.ConsumeInTx | internal/transport/worker/consumer.go:278-321 | inbox row and domain outcome together; another body fails, a conflict completes unless the transaction is aborted |
| InboxTransaction.SeenMessageIsIdle | internal/transport/worker/consumer.go:283-291 | a recorded message leaves the domain alone, and succeeds exactly with the recorded body |
| Answers.FirstDelivery | internal/transport/worker/consumer.go:278-321 | a message the inbox does not know: a known request is only recorded, a settling one is recorded with what it wrote, every other refusal rolls back, each told by the rows |
| UnitOfWork.Pool.WithinTransactionOnce | internal/infra/postgres/uow.go:45-61 | all of the function's writes or none, also when begin, a statement or the commit fails |
| UnitOfWork.Pool.WithinTransaction | internal/infra/postgres/uow.go:28-43 | at most three attempts, another only after a deadlock or serialization failure, each on the tables of its time |
| UnitOfWork.RetriesTransient | internal/infra/postgres/uow.go:28-43 | whichever attempt is the last or does not end in 40P01 or 40001, exactly so many are made and its outcome is the outcome |
| UnitOfWork.RetriedAfterDeadlocks | internal/infra/postgres/uow.go:28-70 | after up to two deadlocks or serialization failures the next attempt decides, on the tables of its time |
| UnitOfWork.AttemptEnds | internal/infra/postgres/uow.go:45-61 | what one attempt leaves and reports for each way it can end |
| UnitOfWork.AtMostOneAttemptCounts | internal/infra/postgres/uow.go:28-61 | at most the last attempt takes effect: on success it did, on failure nothing did unless only the commit's answer was lost |
| Consumer.Handle | internal/transport/worker/consumer.go:240-345 | deletes exactly after a commit with nothing failing since, and then the inbox holds the deleted body; bad messages are released and change nothing |
| Consumer.UnknownWalletIsLeft | internal/transport/worker/consumer.go:305-326 | a message for a wallet that does not exist fails with WALLET_NOT_FOUND, tables and inbox unchanged |
| Consumer.InboxSafety | internal/transport/worker/consumer.go:278-345 | over any history a deleted message's body is in the inbox, a message drives the domain at most once, and a recorded body stays |
| Consumer.OtherBodyChangesNothing | internal/transport/worker/consumer.go:322-326 | a redelivery with another body changes nothing, after any history |
| Consumer.WithinIsDelivery | internal/infra/postgres/uow.go:28-61 | a delivery with its retries does what the others' commits before its last attempt and at most one atomic delivery do |
| Consumer.ServedSafely | internal/transport/worker/consumer.go:278-345 | serving any deliveries with their retries is such a history, so the inbox is safe |
| Deliveries.InterleavedInboxSafety | internal/transport/worker/consumer.go:278-345 | with deliveries advancing statement by statement among everything else: deleted bodies are recorded, no message drives the domain twice, recorded bodies stay |
| Deliveries.RecordedIsConsume | internal/transport/worker/consumer.go:278-321 | a delivery that commits does to tables and inbox what the atomic consumer does at that moment, unless it missed a reference settled from another wallet |
| Deliveries.NothingWithoutInbox | internal/transport/worker/consumer.go:278-321 | a delivery that changes the tables records its message with them; one that finds its key known records it and changes nothing else |
| Consumer.DuplicatesErased | internal/transport/worker/consumer.go:278-345 | any mix of HTTP requests and deliveries with losses and crashes leaves the store of the run without duplicates and redeliveries |
| Outbox.EveryHistory | internal/infra/postgres/inbox_outbox_repo.go:102-169 | sent implies committed, published implies sent, published is never claimed again, two claims are separated by a recorded failure or an expired lease |
| OutboxPublisher.Store.Tick | internal/transport/worker/outbox.go:77-119 | claims a batch in a transaction that may fail, then sends and marks record by record; one failure does not stop the others, a failed claim sends nothing |
| OutboxPublisher.ClaimedBatch | internal/transport/worker/outbox.go:77-89 | a batch that was claimed is the one its SELECT took, skipping what others had locked; a claim rolled back leaves the table alone |
| OutboxPublisher.Store.SendAndMark | internal/transport/worker/outbox.go:98-117 | published when acknowledged, otherwise released with backoff, if its own transaction commits |
| OutboxPublisher.OneRecord | internal/transport/worker/outbox.go:98-117 | published only if acknowledged and marked; a failed send leaves the row unpublished, unlocked and due after 2^min(attempts,8) seconds; without the mark nothing changes |
| OutboxPublisher.TickIsMoves | internal/transport/worker/outbox.go:77-119 | a tick is one claim and then a send and a mark per record of the protocol |
| OutboxPublisher.TickExtendsHistory | internal/transport/worker/outbox.go:77-119 | so after any history a tick is one more piece of it, and `Outbox.EveryHistory` holds of it |
| OutboxPublisher.SelectionTold | internal/infra/postgres/inbox_outbox_repo.go:102-132 | at most twenty unpublished, due and unlocked rows, earliest first, locked for thirty seconds with one attempt more; what is left out was locked or later |
| OutboxPublisher.ClaimDecides | internal/transport/worker/outbox.go:77-89 | after transient failures the next claim decides: committed and seen it is the batch, otherwise the tick ends |
| OutboxPublisher.DrainsInCeiling | internal/transport/worker/outbox.go:77-119 | n eligible events are published in ceil(n/20) successful ticks |
| Queries.ListByWallet | internal/infra/postgres/ledger_repo.go:58-126 | the rows after the cursor in order, up to the limit, or an error if one is not a valid entry |
| Queries.ListLedger | internal/app/queries.go:82-121 | a page within 1..200 entries after the cursor; a next cursor exactly when more remain, pointing at the last one shown |
| Queries.PageReadable | internal/infra/postgres/ledger_repo.go:96-124 | every page of a ledger of valid entries can be listed |
| Queries.PagesAreTheLedger | internal/app/queries.go:82-121 | calling with the cursor of the page before ends after the least number of calls and yields exactly the sorted ledger |
| Queries.ReconcileWallet | internal/app/queries.go:165-196 | stored balance, sum of the ledger and their difference; consistent exactly when they agree |
| Guarantees.VersionsAreConsecutive | internal/domain/event/event.go:144-173 | the versions published are exactly those up to the wallet's current one |
| Guarantees.PendingEventStays | internal/domain/event/event.go:175-201 | a parked row's pending event stays first, and settling adds exactly one event |
| Guarantees.OneOpeningPerWallet | migrations/000001_init.up.sql:69-71 | two opening rows of a wallet are the same row: the index never refuses one |
| Guarantees.BalanceIsWorth | internal/app/process_wager.go:262-306 | in every state any interleaving commits: balance = opening + unreversed WINs - BETs that are unreversed or whose REFUND was rolled back, never negative |
| Guarantees.OneReversal | internal/app/process_wager.go:287-291 | at most one processed reversal per reference, in every interleaving |
| Guarantees.ShortChains | internal/app/process_wager.go:262-306 | processed reversals form only BET-REFUND-ROLLBACK, BET-ROLLBACK and WIN-ROLLBACK chains, with one amount, wallet, player, provider and round |
| Guarantees.LedgerIsChain | internal/domain/wallet/wallet.go:31-86 | a wallet's lines run from zero to its balance without a gap, never below zero, version = 1 + lines - opening line, each line that of a processed row with that result balance |
| Guarantees.MoversAreLines | internal/app/process_wager.go:450-472 | every processed row but a LOSS has exactly one line, with its amount and its result balance as end balance |
| Guarantees.EventsRebuildBalance | internal/domain/event/event.go:144-173 | one balance event per ledger line with its data, consecutive versions up to the current one, and the events alone add up to the balance |
| Guarantees.RowsAreAnnounced | internal/domain/event/event.go:82-142 | each committed row has told its status once, last, with its own data; no row is PENDING or FAILED |
| Guarantees.Reconciles | internal/infra/postgres/ledger_repo.go:38-56 | the ledger's sum is the stored balance, within int64, over all its lines |
| EntryIds.StepLine | internal/app/process_wager.go:450-472 | a step adds at most one line, on one wallet, with the id it was handed; a lease adds none |
| Guarantees.LedgerIdsAreUnique | migrations/000001_init.up.sql:79-98 | in every state any interleaving commits no two lines of any wallets share an id: the primary key never refuses one |
| Guarantees.LedgerIsListed | internal/app/queries.go:82-121 | every committed ledger is readable, and a call answers exactly when its cursor can be decoded |
| Guarantees.PagesOfLedger | internal/app/queries.go:82-121 | following the cursors of a committed ledger yields exactly its sorted lines in the least number of calls |
| Guarantees.StatusesAreFinal | internal/domain/wagering/transaction.go:291-363 | a row is parked exactly while a retry row exists; a terminal row never changes again; attempts never fall and deadlines never move |
| Guarantees.LogsOnlyGrow | migrations/000001_init.up.sql:103-112 | ledger and event log are only ever appended to |
| Guarantees.AnsweredForEver | internal/app/process_wager.go:207-229 | a settled row answers every equivalent later request with its stored status, code and minor units, whatever moved since |
| Guarantees.DuplicatesNeverWrite | internal/app/process_wager.go:79-117 | a request with a known key or external id changes nothing; replay exactly when key and payload are one row's, else conflict |
| Guarantees.NewRequest | internal/app/process_wager.go:103-142 | status, code, balance, ledger line, retry row and untouched rows of every new request, decided by the committed rows alone |
| Guarantees.NextExecution | internal/app/resolve_pending.go:66-120 | an execution settles the row, or uses one attempt while attempts and deadline last; it errs exactly when the credit overflows |
| Guarantees.OverflowPasses | internal/app/resolve_pending.go:66-120 | a credit that did not fit errs later exactly while the balance leaves no room and nothing else reversed the BET, and otherwise settles the row |
| Stories.OverflowHappens | internal/app/process_wager.go:396-416 | a committed state, from a wallet opened with 2^63-1, in which every execution of a parked REFUND fails |
| Stories.OverflowPassed | internal/app/process_wager.go:396-416 | one BET later any execution pays the same REFUND out |
| Guarantees.LateIsDirect | internal/app/resolve_pending.go:66-120 | once the reference is settled, resolving gives what processing the request now would, but for the arrival time and the pending event, errors included |
| Guarantees.ParkedRowSettles | internal/app/resolve_pending.go:70-81 | by its maximum of executions a parked row is terminal, whatever it refers to, cycles included |

## Left out

- Postgres.Repositories.InsertOutbox: cannot fail here; event ids and payload encoding are not part of it.
- Postgres.Repositories.InsertLedger: the CHECK constraints and the primary key of the ledger table are not failure paths; `Guarantees.LedgerIsChain` and `Guarantees.LedgerIdsAreUnique` show that no stored line ever violates them.
- Postgres.Repositories.TryInsertIdempotency: reports a duplicate primary key like a duplicate external id.
- DomainWagering.TransitionsAreForward: FAILED appears in the transition table only, because no use case marks a row failed.
- DomainMoney.NormalizeCurrency: ASCII only; Unicode white space and case folding are not part of this model.
- AppResolve.ResolveLocked: the trailing retry for a reference that is "not PROCESSED" is missing because the five statuses leave none to reach it.
- Interleavings.Serializable: resolver executions of one row do not overlap here, which `Leases.LeasesKeepApart` derives from the leases and `Overlaps` does without; the writes of an execution take effect with its commit; openings and leases, which rely on nothing they have read before, are single steps; an INSERT whose keys are taken is a refusal of the request, not of a commit; a foreign reference settled between lookup and commit may be missed, which the log records.
- LockOrder.EveryUseCaseAscends: the lock program of each use case is read off its statements by hand; `Progress.NeverStuck` is about the statements of `Locking` themselves.
- LockOrder.NeverDeadlocked: the two unique keys of one INSERT are one acquisition; the key-share locks of foreign keys are not listed: on the wallet their transaction already holds the stronger lock, and on a referenced row they are compatible with the updates of others.
- UnitOfWork.Pool.WithinTransaction: the joining of error values and error texts are not part of it.
- Leases.LeasesKeepApart: the leases of a tick whose claim was rolled back are the exception `ReferenceWorker.ResolvesUnleased` shows.
- ReferenceWorker.Tick: the UPDATE ... RETURNING may return its rows in any order, so none is assumed.
- Consumer.Handle: JSON decoding is a given result of the body; receiving, grouping, shutdown and the in-flight map are not modelled, and no delivery order is assumed.
- Outbox.EveryHistory: follows the delivery columns of the outbox by event id; the events themselves, by aggregate, are the outbox of `Postgres.Database`.
- OutboxPublisher.Store.Tick: what others commit between two attempts at the claim is not part of it.
- OutboxPublisher.DrainsInCeiling: assumes that nothing else falls due while the backlog drains.
- Queries.ListLedger: cursor text (base64url and timestamps) is taken to decode to what was encoded, or not at all.
- Queries.PagesAreTheLedger: for a ledger that does not change between calls; entries committed meanwhile may sort before a cursor already given.
- The repository's version counter is an unbounded integer here.
- Correlation and causation ids, metrics, logging, health, authentication, HTTP handlers and problem bodies.
- Wallets are never rehydrated with values the constructors refuse, and the zero Money without a currency does not exist here.
