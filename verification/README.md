# Verified model of the wallet service

A Dafny model of the wallet's money engine, of the reconciliation checker that
audits it, of the webhook outbox it feeds and of its in-memory rate limiter, with
proofs about all of them. The main statements are about every run: any number of
concurrent requests, any interleaving of their database statements, any failures.

`dafny verify dfyconfig.toml` checks the whole project.

## How it is built

| modules | what they hold |
|---|---|
| `Int64`, `Sequences`, `Totals`, `Entities` | wrapping arithmetic, shared facts, the persisted rows |
| `Ledger`, `Reconciliation` | grouping, net and sorting of entries; the checker as loops, proved against a report specification |
| `Consistency`, `Conservation`, `LedgerFaults`, `Reports` | what a healthy report means and what an unhealthy one names, for arbitrary tables |
| `Engine`, `Meaning`, `Answers`, `Honesty`, `Preservation` | top up and transfer as atomic operations, what they do in mathematical integers, which answer they give when, the invariant they keep |
| `Store`, `WebhookService`, `TransactionUsecase` | the same code statement after statement, updating tables and queue in place, proved against the atomic operations |
| `EndToEnd` | honest tables meet the checker, read at one moment or at three |
| `Protocol`, `Invariant`, `QuietSteps`, `LoudSteps`, `CommitSteps`, `Runs` | concurrent execution, one database statement per step, and its invariant |
| `Serializability`, `Refusals`, `ExactlyOnce`, `Repeats`, `LockOrder`, `Audits`, `Progress`, `Finishing`, `Deliveries` | theorems over all runs |
| `Webhook`, `Retries`, `EarlySends` | the outbox, its retry budget, when it sends too early |
| `Scenarios` | concrete runs that show where two expected properties fail |
| `RateLimit` | the fixed-window limiter |

A process of `Protocol` has a program counter, a buffer of statements nobody else
can see, at most one idempotency key and at most two wallet rows. Its steps are
reservation (blocked while an uncommitted transaction holds the key), the unlocked
wallet read, one lock at a time in ascending id order, the decision on the locked
rows, one write at a time, commit, and the announcement after the commit. Any step
before the commit may fail and roll back. Registrations, webhook worker turns, clock
ticks and restarts happen in between.

## Assumptions

- Isolation is READ COMMITTED with row locks, as PostgreSQL gives it when none is
  requested: a locking read sees the latest committed row and holds it until the
  transaction ends; a reservation waits for an uncommitted holder of its key; a
  transaction takes effect at its commit or not at all. These semantics, the unique
  keys and the CHECK constraints are what is modelled of the database.
- Ids drawn for a request are fresh and pairwise different where the code needs it.
  They are drawn together with the reservation; the order of draws within one
  request does not matter because they are private until the commit.
- The clock never goes back, and stored times resolve a commit from the next lock
  of the same row: a commit advances the clock. That entries of one wallet have
  strictly increasing times is then proved, not assumed.
- Response bodies are values: they pass through JSONB, so they are compared as
  documents, not as bytes. Request hashes are opaque and compared for equality.
- A user and the wallet of that user are created together, as `Register` and the
  admin seed do, so the users table is the index from users to wallets.
- The caller learns how its COMMIT ended: a COMMIT that takes effect while the
  caller gets an error, as when the connection is lost, does not happen. (A caller
  that repeats its request after such an error would get a replay.)
- One webhook worker, whose attempts come after the scan they belong to. A scan is
  one step of the system: the commits and announcements that the code lets happen
  between its attempts come before or after it. They touch other rows and the end
  of the queue, and the scan reads its batch once, at the start.
- Replies of the endpoint, the clock and the outcome of reading and saving each row
  are inputs. A restart empties the queue at any time.

Where documentation and code differ, the code is followed. `docs/webhooks.md:84-87`
says that a first failure leads to RETRYING and that FAILED comes once the maximum
is exceeded; the code reaches FAILED at the maximum (`internal/usecase/webhook.go:270`),
so with a maximum of 1 the first failure is final. `Webhook.FirstFailureRetries`
states exactly when the documented behaviour holds.

Two properties one might expect are false, and the project says exactly when they
hold. A delivery can be sent before its scheduled retry: `Audits.EarlySendsInRuns`
gives the condition and `Scenarios.EarlySendHappens` a run. A "wallet not found" can
be out of date when it is given: `Refusals.RefusalsAreExact` gives the condition,
`Refusals.NotFoundWasTrue` the moment at which it was right, and
`Scenarios.StaleNotFound` a run.

## Model

| member | source | states |
|---|---|---|
| Serializability.Serializable | internal/usecase/transaction.go:230-393 | for any number of requests and any interleaving of reservation, unlocked read, row locks, statements, commits and failures, the committed tables are those of the logged operations run one at a time in commit order, every answer is the one that serial run gives, and the log lists exactly the successes that callers see, once each |
| Serializability.RealTimeOrder | internal/usecase/transaction.go:230-393 | a request that arrives after another was answered comes after it in that serial order |
| Refusals.RefusalsAreExact | internal/usecase/transaction.go:211-396 | in every run, a step that ends a request with an error, other than a failure from outside, gives the answer the operation gives when run alone on the tables of that moment if and only if, should the error be a missing wallet, a wallet to lock is still missing |
| Refusals.NotFoundWasTrue | internal/repository/gorm.go:102-115 | in every run, a request answered "wallet not found" had a moment, just before its locking statement, at which that was the answer of the operation run alone |
| Refusals.OverflowsAreAborted | migrations/000003_constraints_hardening.up.sql:5-9 | in every reachable state, a statement that a writing request still has to make is refused by a CHECK if and only if the credited balance plus the amount exceeds int64 or the webhook target is blank, so such a request never commits and no other is stopped |
| Refusals.StepRefusal | internal/usecase/transaction.go:211-396 | the same as RefusalsAreExact for one step of a coherent state: validation, replay conflicts, unknown user, same wallet, locked rows, refused statements |
| Refusals.OutsideFailure | internal/repository/gorm.go:27-32 | a failure from outside before the commit is answered with an internal error; no table, delivery, queue or other request changes, and the locks are free |
| Refusals.UnseenIsMissing | internal/repository/gorm.go:102-115 | the locking statement sees a wallet exactly if it exists when the statement starts, and if not, "wallet not found" is the serial answer then |
| Scenarios.StaleNotFound | internal/usecase/transaction.go:273-279 | a concrete run in which "wallet not found" is given although the recipient has been registered meanwhile |
| Runs.ConfigKept | internal/usecase/webhook.go:51-69 | the configuration never changes |
| Audits.EveryStateIsHealthy | internal/usecase/reconciliation.go:73-177 | in every state reachable from the empty database the checker reports healthy with all three issue lists empty, however the rows are listed |
| Audits.EveryStateConserves | internal/usecase/reconciliation.go:129-149 | in every reachable state all balances add up to all top ups exactly, and each balance is non-negative and is the mathematical sum of its entries: nothing ever wrapped |
| Audits.AuditDuringRun | internal/usecase/reconciliation.go:37-50 | the three reads may straddle any steps of any run: no transaction, chain or arithmetic issue; the ledger issues are exactly the entries whose wallet or transaction was read too early, the balance issues exactly the wallets whose later commits have a non-zero net, off by that net |
| Audits.EveryRecordIsComplete | internal/usecase/transaction.go:245-263 | in every reachable state each idempotency record has status 200 and belongs to exactly one transaction, each transaction has its record, and no caller was ever told that a request is still being processed |
| Audits.OutboxAgrees | internal/usecase/webhook.go:109-155 | in every reachable state: deliveries match transactions one to one when webhooks are active and there are none otherwise, every queued id names a committed delivery, the queue is at most twice the batch size, a delivery that was never tried is pending and due at any time (so a dropped announcement is not lost), rows are coherent, sends are bounded by the retry budget plus lost updates, and a delivery marked SUCCESS was put on the wire |
| Audits.EarlySendsInRuns | internal/usecase/webhook.go:196-225 | in every reachable state a turn of the worker sends something before its scheduled retry if and only if it pops a delivery that is RETRYING, whose time has not come, with a usable target: the guard looks at the status only, and scans never send early |
| Deliveries.DeliveriesAsConfigured | internal/usecase/webhook.go:109-143 | in every reachable state each delivery has the configured target, secret and maximum (3 if below 1), has failed at most that often, FAILED if and only if exactly that often, and was sent at most that often plus once for each lost update of it |
| Deliveries.CommitAnnounces | internal/usecase/transaction.go:353-392 | in every reachable state a commit hands its caller a new delivery that tells of the new transaction if and only if webhooks are enabled and have a target |
| Deliveries.QueueMoves | internal/usecase/webhook.go:145-177 | in every reachable state an announcement queues its delivery unless the queue holds twice the batch size, the worker takes ids from the front, a restart loses them, and no other step touches the queue |
| Finishing.DeliveriesFinish | internal/usecase/webhook.go:157-194 | from every reachable state, whatever is committed, announced, popped, lost, scanned or restarted in between, as many worker turns as the deliveries created up to t have retry budget leave each of them succeeded or failed, counting the turns that save an attempt on one of them and the scans that come after their scheduled retries |
| Finishing.OutcomesAreFinal | internal/usecase/webhook.go:201-203 | over every run, no mix of pops, scans, commits and restarts loses a delivery or touches one that has succeeded or failed |
| Audits.StepExtends | migrations/000003_constraints_hardening.up.sql:56-73 | every step only appends to transactions and ledger and removes no wallet |
| Audits.RunExtends | migrations/000003_constraints_hardening.up.sql:56-73 | the same over whole runs |
| ExactlyOnce.CallersAgree | internal/usecase/transaction.go:241-263 | over every run, two callers that succeed with one (key, user, endpoint) sent the same payload hash, get the same status and body, and at most one of them executed |
| ExactlyOnce.KeyTakenIffSucceeded | internal/usecase/transaction.go:241-263 | a key has a record if and only if some caller succeeded with it, so a rejected request leaves its key reusable |
| ExactlyOnce.ReplayIffRepeated | internal/usecase/transaction.go:241-263 | an answer is a replay if and only if an earlier request with the same key succeeded |
| ExactlyOnce.SecondIsReplay | internal/usecase/transaction.go:86-104 | the later of two successes with one key repeats status and body for the same hash and changes no table |
| ExactlyOnce.ExecuteRecords | internal/usecase/transaction.go:72-104 | an execution stores one completed record under a new key, everything else changes nothing, and a replay requires the stored hash |
| ExactlyOnce.RecordsAreAnswers | internal/repository/gorm.go:246-277 | the keys with a record are exactly the keys answered so far |
| ExactlyOnce.RecordsPersist | internal/repository/gorm.go:246-277 | a committed record never changes |
| Repeats.RepeatIsAnswered | internal/usecase/transaction.go:241-263 | from every reachable state, whoever repeats a request that has succeeded can be answered in three steps, whatever everybody else is doing: with the status and body the first caller saw if the hash is the same, with the conflict if it is not; no table and no delivery changes |
| Repeats.FetchAnswers | internal/usecase/transaction.go:246-262 | in every reachable state a request that lost the race for its key is answered with the stored status and body if and only if its hash is the one on record, and with the conflict if and only if it is not |
| Repeats.SuccessOnRecord | internal/usecase/transaction.go:378-392 | a success stays on record as its caller saw it |
| Answers.RepeatAnswers | internal/usecase/transaction.go:245-263 | on any tables: a request with a key on record gets the stored status and body if the hash is the same and the record complete, the conflict if and only if the hash differs, the in-progress answer if and only if the record is incomplete; it changes nothing, and no other request gets these answers |
| Answers.InvalidAnswers | internal/usecase/transaction.go:212-226 | on any tables: a missing key, an amount of zero or less, an unusable user id and an unusable recipient id are each answered with their own error, in this order and in no other case |
| Answers.RefusalAnswers | internal/usecase/transaction.go:265-300 | on any tables: same wallet, wallet not found, inactive wallet and insufficient balance are each answered exactly in their case, in this order |
| Answers.InternalAnswers | internal/usecase/transaction.go:106-160 | an internal error is given exactly to a caller without a wallet, for a credit beyond int64, or for a webhook target that is only blanks |
| LockOrder.SortedHistoryIsLockOrder | internal/usecase/transaction.go:273-351 | in every reachable state, sorting the entries of a wallet by creation time and id lists the transactions in the order in which they were granted its row lock, and each entry starts from the balance the previous one left |
| LockOrder.CommittedOrigins | internal/usecase/transaction.go:327-351 | an execution adds one entry of its transaction to each wallet it locked and none to any other |
| Progress.NoWaitingCycle | internal/repository/gorm.go:102-115 | in every reachable state the wait-for graph over keys and wallet rows has no cycle |
| Progress.NoDeadlock | internal/repository/gorm.go:102-115 | in every reachable state, while a request is unfinished, some request has a step that does not fail it |
| Progress.WaitingClimbs | internal/repository/gorm.go:102-115 | a request only waits for requests that wait for something later: key first, then wallets in ascending id order |
| Progress.RunsAreShort | internal/usecase/transaction.go:211-402 | without new arrivals, however scheduled, requests take at most a fixed total number of steps |
| Progress.EveryoneCanFinish | internal/usecase/transaction.go:211-402 | from every reachable state all requests can be run to their answers without failing any on the way |
| Consistency.HealthyIffConsistent | internal/usecase/reconciliation.go:73-289 | for all tables, the report is healthy if and only if the declarative predicate Consistent holds: references, wrapped entry arithmetic, positive amounts, chain from zero, balance congruent to the net, top up and transfer shapes |
| Consistency.Telescoping | internal/usecase/reconciliation.go:123-149 | a healthy report pins every intermediate balance: each equals the wrapped prefix sum, and the last equals the stored balance, although no code compares them |
| LedgerFaults.ReportedFaults | internal/usecase/reconciliation.go:88-127 | for all tables with unique entry ids, the report names an entry for a reason if and only if that reason is true of it: its wallet or transaction is missing, its kind is unknown, its wrapped arithmetic is wrong, its amount is not positive, it is the first of its wallet and does not start from zero, or it does not start from where the entry before it in its wallet ended |
| LedgerFaults.FaultsInOrder | internal/usecase/reconciliation.go:88-127 | the complaints about single entries come first, in the order of the table and of the checks, then the chain complaints, wallet by wallet and in order of time |
| LedgerFaults.LinksInOrder | internal/usecase/reconciliation.go:179-200 | the chain complaints about a wallet come in the order of its history |
| Reports.ReportedShapes | internal/usecase/reconciliation.go:151-163 | for all tables with unique entry ids, the report complains about a transaction for a reason if and only if that reason is true of the transaction and its rows in order of time, and lists their ids in that order |
| Reports.ShapesInOrder | internal/usecase/reconciliation.go:222-289 | these complaints come transaction by transaction, and for one transaction in the order of the checks, none twice |
| Reports.ReportedBalances | internal/usecase/reconciliation.go:123-149 | the report names a wallet if and only if its balance differs from the credits less the debits among its entries modulo 2^64, with both balances and the number of entries |
| Reports.BalancesInOrder | internal/usecase/reconciliation.go:123-149 | wallets are named in the order of their table, each row at most once |
| Reports.TopUpFaults | internal/usecase/reconciliation.go:222-247 | the reasons for a top up are exactly the true ones: a source, no destination, not one row, and of one row a wrong wallet, kind or amount |
| Reports.TransferFaults | internal/usecase/reconciliation.go:249-289 | the reasons for a transfer are exactly the true ones; the debit and the credit are looked for only up to the first row with a wrong amount |
| Reports.ReportCounts | internal/usecase/reconciliation.go:165-174 | the summary counts what was read and what was found |
| Conservation.HealthyConservesMoney | internal/usecase/reconciliation.go:123-163 | for all tables with unique ids, a healthy report means that all balances equal all top ups modulo 2^64 |
| Conservation.OrderIndependence | internal/usecase/reconciliation.go:316-323 | listing any table in another order changes neither verdict nor summary and permutes the issues |
| Conservation.TransactionNet | internal/usecase/reconciliation.go:151-163 | a consistent transfer nets to zero and a consistent top up to its amount |
| EndToEnd.HonestIsHealthy | internal/usecase/reconciliation.go:73-177 | tables that satisfy the engine invariant are healthy |
| EndToEnd.HonestConservesMoney | internal/usecase/reconciliation.go:123-163 | in such tables money is conserved exactly |
| EndToEnd.NonAtomicReads | internal/usecase/reconciliation.go:37-50 | the exact report when the three reads see three successive honest states |
| EndToEnd.SortingRecoversHistory | internal/usecase/reconciliation.go:316-323 | sorting recovers the commit order of a wallet from any listing of the ledger |
| Meaning.TopUpMeaning | internal/usecase/transaction.go:106-200 | a top up executes if and only if the request is valid, its key is new, its wallet exists, the webhook target passes its CHECK and the mathematical sum fits int64; then exactly one wallet, transaction, entry and record change as stated in mathematical integers, otherwise nothing changes |
| Meaning.TransferMeaning | internal/usecase/transaction.go:265-393 | the same for a transfer: executes if and only if both wallets exist and differ, the sender can pay and the recipient does not overflow; moves exactly the amount |
| Meaning.ExecuteTopUp | internal/usecase/transaction.go:106-200 | the refusals of a top up, in order |
| Meaning.ExecuteTransfer | internal/usecase/transaction.go:265-393 | the refusals of a transfer, in order |
| Meaning.TopUpExact | migrations/000003_constraints_hardening.up.sql:5-9 | for a top up the CHECKs reject exactly the overflowing sums |
| Meaning.TransferExact | migrations/000003_constraints_hardening.up.sql:5-9 | for a transfer the CHECKs reject exactly the overflowing credits |
| Int64.OverflowShowsAsNegative | migrations/000003_constraints_hardening.up.sql:5-7 | the wrapped sum is negative if and only if the mathematical sum exceeds the largest int64 |
| Int64.Wrap | internal/usecase/transaction.go:124-125 | wrapping int64 arithmetic: the representative of the residue class |
| Engine.Targets | internal/repository/gorm.go:103-112 | the ids that are locked, in the ascending order in which they are locked |
| Engine.ApplyPlan | internal/usecase/transaction.go:72-193 | the statements of an operation, applied in order, reserve a record first and complete that record last |
| Preservation.ExecuteKeepsHonest | internal/usecase/transaction.go:56-402 | every operation keeps the engine invariant: user index, CHECKs, exact entries, unbroken histories, footprints, record bijection |
| Preservation.RegisterKeepsHonest | internal/usecase/auth.go:63-98 | so does registration |
| Preservation.PostEntry | internal/usecase/transaction.go:124-159 | posting an entry under the row lock continues the history of its wallet and of no other |
| Store.Database.Rollback | internal/repository/gorm.go:27-32 | an error in the transaction function restores every table |
| Store.Database.Reserve | internal/repository/gorm.go:246-257 | inserts unless the (key, user, endpoint) is taken, and says which |
| Store.Database.Get | internal/repository/gorm.go:259-267 | finds the record of a key |
| Store.Database.GetByUserID | internal/repository/gorm.go:86-92 | finds the wallet id of a user |
| Store.Database.LockByIDs | internal/repository/gorm.go:102-115 | returns the existing rows in ascending id order |
| Store.SortIdsAscending | internal/repository/gorm.go:103-112 | the ids are put in ascending order, none added or lost |
| Store.Database.CreateTransaction | migrations/000003_constraints_hardening.up.sql:11-28 | appends a transaction that passes its CHECKs |
| Store.Database.UpdateWallet | internal/repository/gorm.go:117-119 | saves a wallet that passes its CHECKs |
| Store.Database.CreateEntries | internal/repository/gorm.go:202-204 | appends entries that pass their CHECKs |
| Store.Database.CreateDelivery | migrations/000003_constraints_hardening.up.sql:40-50 | inserts a delivery that passes its CHECKs |
| Store.Database.MarkCompleted | internal/repository/gorm.go:269-277 | updates status and body of the record with that id and of no other |
| TransactionUsecase.Usecase.Run | internal/usecase/transaction.go:56-402 | the statement-by-statement code has exactly the effect of the atomic operation, or, if a statement fails, answers with an internal error and leaves tables, deliveries and queue as they were |
| TransactionUsecase.Usecase.TopUpInTransaction | internal/usecase/transaction.go:72-200 | the function TopUp passes to the transaction manager |
| TransactionUsecase.Usecase.TransferInTransaction | internal/usecase/transaction.go:231-393 | the function Transfer passes to the transaction manager |
| TransactionUsecase.Usecase.WriteTopUp | internal/usecase/transaction.go:124-200 | the writes of a top up leave the tables the atomic operation leaves |
| TransactionUsecase.Usecase.WriteTransfer | internal/usecase/transaction.go:298-393 | the writes of a transfer leave the tables the atomic operation leaves |
| TransactionUsecase.Usecase.LockPair | internal/usecase/transaction.go:273-290 | finds both wallets whatever their order, or neither |
| TransactionUsecase.Usecase.Admit | internal/usecase/transaction.go:231-268 | reserves the key, replays, or finds the wallet of the caller |
| TransactionUsecase.Usecase.Replay | internal/usecase/transaction.go:245-263 | the answer for a taken key |
| TransactionUsecase.Usecase.Finish | internal/usecase/transaction.go:353-392 | audit, delivery and completed record |
| Runs.InvAlways | internal/usecase/transaction.go:230-393 | the invariant of the concurrent engine holds in every reachable state |
| Runs.StepKeepsInv | internal/usecase/transaction.go:230-393 | every step keeps it |
| LoudSteps.CommitIsExecute | internal/usecase/transaction.go:265-393 | what a transaction has buffered is what the atomic operation does on the tables as they are at its commit: the balance comes from the locked row, the unlocked read contributes only the wallet id |
| LoudSteps.RegistrationKeepsInv | internal/usecase/auth.go:77-98 | a registration disturbs no running transaction |
| CommitSteps.OtherOk | internal/repository/gorm.go:102-115 | a commit is not noticed by a process that holds neither its key nor its rows |
| CommitSteps.CommittedKeepsInv | internal/repository/gorm.go:27-32 | a commit keeps the invariant |
| QuietSteps.ReservationIsQuiet | internal/repository/gorm.go:246-257 | reserving a free key takes a lock that nobody else holds |
| QuietSteps.LockRowIsQuiet | internal/repository/gorm.go:102-115 | a granted row is the latest committed row and stays so while it is held |
| QuietSteps.DecisionIsQuiet | internal/usecase/transaction.go:277-347 | the checks and the plan of writes are made on current rows, with times later than every entry of the wallets |
| QuietSteps.AnswerFromRecord | internal/usecase/transaction.go:245-263 | a committed record is complete, so the branch for requests in progress is not reached |
| Reconciliation.ReconcileState | internal/usecase/reconciliation.go:73-177 | the loops compute the report specification for all tables with unique ids, and are healthy exactly if all three lists are empty; LedgerFaults and Reports say what that specification means |
| Reconciliation.IndexLedger | internal/usecase/reconciliation.go:88-121 | groups the ledger by wallet and transaction and finds the entry issues |
| Reconciliation.CheckEntry | internal/usecase/reconciliation.go:91-120 | reference and arithmetic issues of one entry |
| Reconciliation.CheckWallets | internal/usecase/reconciliation.go:123-149 | chain and balance issues of all wallets |
| Reconciliation.DeriveBalance | internal/usecase/reconciliation.go:129-137 | the running int64 sum |
| Reconciliation.ValidateWalletLedgerChain | internal/usecase/reconciliation.go:179-200 | an issue is listed if and only if it names an entry that does not start from zero as the first, or from the balance the entry before it left |
| Reconciliation.CheckTransactions | internal/usecase/reconciliation.go:151-163 | shape issues of all transactions |
| Reconciliation.ValidateTopUpTransaction | internal/usecase/reconciliation.go:222-247 | the top up issues, in order |
| Reconciliation.ValidateTransferTransaction | internal/usecase/reconciliation.go:249-289 | the transfer issues, in order |
| Reconciliation.ScanTransferEntries | internal/usecase/reconciliation.go:266-279 | the loop that stops at the first wrong amount |
| Reconciliation.NewTransactionIssue | internal/usecase/reconciliation.go:291-305 | an issue names all entries of its transaction |
| Consistency.EntryMathMeaning | internal/usecase/reconciliation.go:202-220 | an entry passes if and only if its kind is known, its amount positive and its arithmetic right modulo 2^64 |
| Consistency.ChainMeaning | internal/usecase/reconciliation.go:179-200 | no chain issue if and only if the history starts from zero and every entry continues the previous one |
| Consistency.DerivedMeaning | internal/usecase/reconciliation.go:129-137 | the running sum is the wrapped net |
| Consistency.TopUpShapeMeaning | internal/usecase/reconciliation.go:222-247 | no issue if and only if the rows are one credit of the destination for the amount |
| Consistency.TransferShapeMeaning | internal/usecase/reconciliation.go:249-289 | no issue if and only if the rows are one debit of the source and one credit of a different destination for the amount, in either order |
| Ledger.SortLedgerEntries | internal/usecase/reconciliation.go:316-323 | sorts in place by (creation time, id), keeping the contents |
| Ledger.HistoryUnique | internal/usecase/reconciliation.go:316-323 | with unique ids there is only one sorted arrangement, so an unstable sort does not matter |
| Ledger.GroupsPartition | internal/usecase/reconciliation.go:88-121 | the groups of a column partition the ledger |
| WebhookService.Service.constructor | internal/usecase/webhook.go:51-69 | a new service has an empty queue |
| WebhookService.Service.CreateDelivery | internal/usecase/webhook.go:109-143 | writes one pending delivery, with the configured target, secret and number of attempts (3 if below 1), if and only if webhooks are enabled and have a target |
| WebhookService.Service.Enqueue | internal/usecase/webhook.go:145-155 | appends unless webhooks are disabled or the queue holds twice the batch size (20 if below 1) |
| WebhookService.Service.ProcessDelivery | internal/usecase/webhook.go:196-256 | one attempt on a delivery whose row is read and is not terminal, and no effect otherwise |
| WebhookService.Service.MarkFailure | internal/usecase/webhook.go:258-297 | the row after a failure |
| WebhookService.Service.ProcessDue | internal/usecase/webhook.go:182-194 | one attempt on each due delivery, in order |
| WebhookService.Service.Turn | internal/usecase/webhook.go:157-180 | one turn of the worker keeps the outbox coherent |
| Webhook.NewDeliveryOk | internal/usecase/webhook.go:114-128 | a new delivery is coherent, passes its CHECKs and is due at any time |
| Webhook.AttemptOk | internal/usecase/webhook.go:196-281 | every attempt keeps PENDING iff no failure yet, RETRYING iff some and budget left, FAILED iff budget spent, a retry time iff RETRYING, within the CHECKs, and spends budget |
| Webhook.AttemptOutcome | internal/usecase/webhook.go:231-305 | success exactly on 2xx; any other attempt is counted and either ends the delivery or schedules the next one as many configured intervals (30 seconds if below 1) later as attempts have failed; the row records the answer, the error and the time of delivery |
| Webhook.FirstFailureRetries | internal/usecase/webhook.go:270-277 | a first failure leaves the delivery RETRYING, one configured interval later, unless the configured maximum is 1; then it is FAILED |
| Webhook.ScanMeaning | internal/usecase/webhook.go:182-194 | a scan takes at most the configured number of rows (20 if below 1), all of them unfinished and due, and all such rows if they are fewer |
| Webhook.WorkKeepsOk | internal/usecase/webhook.go:165-177 | queue pops and scans, in any mix, keep rows, queue bound and send accounting |
| Webhook.SendsBounded | internal/usecase/webhook.go:196-281 | at most maxRetry sends per delivery, plus one for each update the repository lost; Deliveries.DeliveriesAsConfigured says that this is the configured maximum |
| Webhook.PendingUntilTried | internal/usecase/webhook.go:196-281 | a delivery is pending exactly as long as no attempt on it is on record, and one never tried is due at any time |
| EarlySends.EarlyIffOvertaken | internal/usecase/webhook.go:201-225 | for every possible turn, some send is before its scheduled retry if and only if the turn pops a stored, unfinished delivery whose retry time lies ahead |
| EarlySends.SendsAreSent | internal/usecase/webhook.go:182-225 | the requests put on the wire by a turn are exactly these sends |
| Scenarios.EarlySendHappens | internal/usecase/webhook.go:165-177 | a run from the empty database in which a delivery is sent before its scheduled retry |
| Retries.AllDeliveriesFinish | internal/usecase/webhook.go:182-194 | the same for the worker alone: any mix of turns with as many useful ones as there is budget finishes every delivery created up to t |
| Retries.TurnSpends | internal/usecase/webhook.go:165-194 | no turn adds to the budget, and one that saves an attempt on an old delivery spends from it |
| Retries.TimelyIsProductive | internal/usecase/webhook.go:182-194 | a scan after the scheduled retries of the old deliveries, with its rows read and saved, saves an attempt on one of them unless all have finished |
| Retries.TimelyScanProgresses | internal/usecase/webhook.go:182-194 | when all deliveries are old, such a scan spends one unit for each delivery it finds |
| Retries.ScanSpends | internal/usecase/webhook.go:182-194 | a scan spends one unit for each old delivery whose attempt it saves |
| Retries.OldFirst | internal/repository/gorm.go:407-417 | while an old delivery is unfinished, a scan after the old retries finds an old one: newer deliveries cannot hold it up |
| Retries.TimelyScanExists | internal/repository/gorm.go:407-417 | such a scan is always possible, whatever the endpoint answers |
| Retries.DueBatch | internal/repository/gorm.go:407-417 | a batch of the earliest due deliveries always exists |
| Retries.LifeUnderFailure | internal/usecase/webhook.go:258-281 | under an endpoint that never accepts: after n failures the exact status, count and retry time, until the budget is spent |
| RateLimit.MemoryLimiter.constructor | internal/pkg/ratelimit/limiter.go:79-84 | a new limiter has no entries |
| RateLimit.MemoryLimiter.Allow | internal/pkg/ratelimit/limiter.go:86-113 | one call: counts in the current window or opens a new one and tells count, limit, remaining and end of window; with a limit of zero or less it is admitted and leaves the entries as they were |
| RateLimit.RateBound | internal/pkg/ratelimit/limiter.go:94-112 | for any history on any keys with a clock that never goes back, each window of a key admits at most limit calls and any closed interval as long as a window at most 2 * limit - 1 |
| RateLimit.BoundIsReached | internal/pkg/ratelimit/limiter.go:94-112 | for every limit and window some history reaches that bound, so no smaller one holds |
| RateLimit.WindowFills | internal/pkg/ratelimit/limiter.go:103-107 | the current window has admitted exactly what it counted, up to the limit |
| RateLimit.AnswersCount | internal/pkg/ratelimit/limiter.go:94-112 | for any history, the last call on a key is told its limit, the end of a window that a call on the key began, the number of calls on the key in this window, and what is left of the limit; it is admitted if and only if that number is within the limit |
| RateLimit.NextAnswer | internal/pkg/ratelimit/limiter.go:94-112 | whatever the limits, windows and times: up to the end of the window that the last counting call was told the next call is one more, after it the first of a new window |
| RateLimit.FirstAnswer | internal/pkg/ratelimit/limiter.go:95-101 | the first counting call on a key opens a window |
| RateLimit.LimitOff | internal/pkg/ratelimit/limiter.go:86-89 | after any history a call with a limit of zero or less is admitted and leaves no trace |
| RateLimit.AllAdmitted | internal/pkg/ratelimit/limiter.go:86-89 | on a key without a limit as many calls are admitted as are made, in any interval |
| RateLimit.RemainingCountsDown | internal/pkg/ratelimit/limiter.go:106-112 | within the window the next call is admitted exactly if some were remaining |

## Left out

- HTTP handlers, routing, middleware, DTO validation, metrics, logging: no effect on the proved state.
- Login, tokens, password and signature cryptography: foreign algorithms; the request hash is an opaque value.
- Contents of audit entries, webhook payloads and column widths: an audit write is a statement that may fail; too long strings are such failures.
- Redis limiter, Redis and PostgreSQL clients, configuration loading, health checks: external systems.
- Listing, pagination and admin reads: would only add easy members.
- Several webhook workers: the repository documents its worker as uncoordinated across processes.
- Crash of a process between commit and announcement: covered by a process that never takes its announcement step.
- Deadlock detection and lock timeouts of the database: a request may fail at any step before its commit, for any reason.
- Currency, transaction status and timestamps other than those of ledger entries and deliveries: constants or unread by the modelled code.
- Duplicate primary keys in the checker: `ReconcileState` promises the full report for unique ids, and for duplicates only that healthy means no issue.
- Overflow of counters and of time arithmetic in the limiter and the retry schedule: counters and times are mathematical integers.
- RateLimit.MemoryLimiter.Allow: does not model the mutex; calls are taken one at a time, as the mutex makes them.
- Refusals.RefusalsAreExact: leaves out failures from outside (a lost connection, a cancelled context, a broken statement), because no serial run determines them.
- Store.Database.CreateTransaction: does not model the status CHECK or the uniqueness of the transaction reference, because the status is a constant and references are drawn fresh.
- Store.Database.LockByIDs: does not model blocking; `Protocol` does, one row at a time.
