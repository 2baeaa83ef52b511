# Lite_bank transfer transaction in Dafny

This project models the transaction layer of the Lite_bank store
(`db/sqlc/store.go`), which moves money between two accounts:

- `execTx` begins a database transaction and runs a unit of work inside it.
  It rolls back when the work fails. A rollback that also fails is reported
  together with the work's error. A work that succeeds is committed.
- `TransferTx` is that unit of work for a transfer. It creates the transfer
  record, the source entry (−amount) and the destination entry (+amount),
  then adjusts both balances. The first failing step ends it.
- `addMoney` issues the two balance increments in the order it is given.
  `TransferTx` calls it with the smaller account id first, then maps the two
  returned accounts back to from/to.

The ledger is a map of balances by account id plus the transfer and entry
tables in insertion order (`Ledger.State`). The three generated single-row
operations (`CreateTransfer`, `CreateEntry`, `AddAccountBalance`) are not
part of this model. They are stood in for by an append or an increment that
fails when a fault flag says so. An increment also fails with `NoRows` when
no account has the id, which is what an `UPDATE … RETURNING` of one row
reports. Begin, rollback and commit failures are flags as well
(`TxFaults`), and so is each of the five single-row calls (`StepFaults`).
Every exit path can therefore be stated.

The project has two layers:

- `TransferSpec` (and `Ledger`) give the meaning of each operation as a
  function of the ledger state. Each function also returns the list of
  single-row calls it issued, in order.
- `Db.Store` is the imperative model. It is a class whose fields are the
  ledger tables, plus a ghost log of every call issued. Its methods follow
  the source statement by statement. Each method is proved to leave the
  state, the result, the error and the log that the matching function
  gives.

`Audit` proves that the entry table stays an audit trail: every balance
equals its opening balance plus the net of its entries, and all entries sum
to zero. `Scenarios` checks concrete runs.

## Model

| member | source | states |
|---|---|---|
| `Ledger.CreateTransfer` | db/sqlc/store.go:72-80 | the create-transfer call appends exactly the record (from, to, amount) and changes nothing else; when it fails the ledger is untouched, the zero record comes back and the error names this call |
| `Ledger.CreateEntry` | db/sqlc/store.go:83-100 | the create-entry call appends exactly the entry (account, amount); when it fails the ledger is untouched, the zero entry comes back and the error names this call |
| `Ledger.AddAccountBalance` | db/sqlc/store.go:154-165 | the increment succeeds iff it is not made to fail and the account exists; on success only that balance changes, by the signed amount, and the returned account carries the new balance; on failure nothing changes and the zero account comes back |
| `TransferSpec.Order` | db/sqlc/store.go:105-111 | the first update targets the smaller id; the two updates are exactly the debit (from, −amount) and the credit (to, +amount), as a multiset; on equal ids the credit goes first; the from-side goes first exactly when it has the smaller, distinct id |
| `TransferSpec.AddMoney` | db/sqlc/store.go:149-168 | the two increments are issued in the given order and the second only if the first succeeds; the error is the failing call's; if the first fails nothing changes and both accounts are zero; on success every balance changes by exactly its deltas and account1 is the snapshot after the first update, account2 after the second |
| `TransferSpec.UpdateBalances` | db/sqlc/store.go:105-116 | the two balance calls are issued in ascending-id order and stop at the first error: the second is issued exactly when the first is not made to fail and its account exists; on success the from-balance drops and the to-balance rises by the amount (no change when from == to), every other balance stays, and the returned from/to accounts are the from and to snapshots whichever order the updates ran in |
| `TransferSpec.CreateRecords` | db/sqlc/store.go:72-100 | the transfer, source entry and destination entry are created in that order; the second call is issued exactly when the first succeeds and the third exactly when the first two do; a failing call is the last one issued and is the reported error; balances are untouched, and on success exactly one transfer and two entries (−amount on from, +amount on to) are appended and stored in the result |
| `TransferSpec.Work` | db/sqlc/store.go:65-121 | the calls issued are always a prefix of the fixed five-call order, the whole order on success; each call is issued exactly when every call before it succeeded, so the work stops at the first failing call, whose error it reports; it succeeds iff no call is made to fail and both accounts exist; on success one transfer and two entries summing to zero are appended, only the two balances move, and the result holds the records and the two snapshots in from/to order |
| `TransferSpec.ExecTx` | db/sqlc/store.go:23-41 | for any unit of work: a failed begin runs nothing and returns the begin error; otherwise the work's calls are issued once; a failed work with a successful rollback leaves the state as before and returns the work's error unchanged; a failed rollback returns an error carrying both causes; a successful work returns what the commit returns; a failed commit leaves the old state or, when its writes persisted, the work's; the state is either the old one or the work's, and the work's only when committed, when the commit failed or when the rollback failed |
| `TransferSpec.TransferTx` | db/sqlc/store.go:62-124 | the transfer commits iff begin and commit succeed, no call fails and both accounts exist; then exactly the five calls were issued in order, the transfer's effect is applied, and the result holds the three records and the from/to snapshots; a failed begin returns the zero result and issues no call; otherwise the result and the calls are the work's; a failed work returns its own error after a successful rollback and that error combined with the rollback's after a failed one; a successful work whose commit fails returns the commit error and leaves the ledger either as it was or with the transfer applied; every other error leaves the ledger as it was |
| `Audit.EntryTotalAppend` | db/sqlc/store.go:83-96 | the net of the entries on an account over two appended tables is the sum of their nets |
| `Audit.EntrySumAppend` | db/sqlc/store.go:83-96 | the sum of all entry amounts over two appended tables is the sum of their sums |
| `Audit.TransferEntriesNet` | db/sqlc/store.go:83-96 | the two entries of a transfer sum to zero, and per account they net to exactly the balance change the transfer makes |
| `Audit.AppliedKeepsReconciled` | db/sqlc/store.go:83-116 | if every balance equals its opening balance plus the net of its entries before a committed transfer, the same holds after it |
| `Audit.TransferTxKeepsReconciled` | db/sqlc/store.go:62-124 | whatever fails, including a commit whichever way it went, a transfer transaction whose rollback does not fail keeps every balance equal to its opening balance plus the net of its entries |
| `Audit.TransferTxKeepsEntrySum` | db/sqlc/store.go:62-124 | a transfer transaction whose rollback does not fail leaves the sum of the entry table unchanged |
| `Scenarios.OneToTwo` | db/sqlc/store.go:62-124 | moving 100 from account 1 (500) to account 2 (300) leaves both at 400, records transfer (1, 2, 100) and entries (1, −100), (2, +100), and updates account 1 then account 2 |
| `Scenarios.TwoToOne` | db/sqlc/store.go:105-116 | moving 100 from account 2 to account 1 updates account 1 first, yet the result gives account 2 as the from-account (200) and account 1 as the to-account (600) |
| `Scenarios.ToSelf` | db/sqlc/store.go:105-116 | a transfer from an account to itself succeeds with no net change; the credit runs first, so the to-snapshot shows balance + amount and the from-snapshot the final balance |
| `Scenarios.MissingAccount` | db/sqlc/store.go:107-114 | a transfer to an account that does not exist fails at the balance step with no-rows and, rolled back, leaves the ledger as it was |
| `Scenarios.OppositeTransfersCancel` | db/sqlc/store.go:105-116 | the balance change of a committed transfer followed by that of a committed transfer of the same amount in the opposite direction leaves every balance as it was |
| `Db.Store.constructor` | db/sqlc/store.go:15-20 | a new store holds the given balances, no transfers, no entries and an empty call log |
| `Db.Store.CreateTransfer` | db/sqlc/store.go:72-80 | the method updates the tables and returns exactly what `Ledger.CreateTransfer` gives, and logs the call |
| `Db.Store.CreateEntry` | db/sqlc/store.go:83-100 | the method updates the tables and returns exactly what `Ledger.CreateEntry` gives, and logs the call |
| `Db.Store.AddAccountBalance` | db/sqlc/store.go:154-165 | the method updates the balance and returns exactly what `Ledger.AddAccountBalance` gives, and logs the call |
| `Db.Store.AddMoney` | db/sqlc/store.go:149-168 | assigning the two named results in sequence leaves the state, accounts, error and call log that `TransferSpec.AddMoney` gives |
| `Db.Store.CreateRecords` | db/sqlc/store.go:72-100 | storing each returned record into the result and returning at the first error leaves the state, result, error and log that `TransferSpec.CreateRecords` gives |
| `Db.Store.UpdateBalances` | db/sqlc/store.go:105-116 | the id comparison and the two `addMoney` calls with swapped result targets leave the state, accounts, error and log that `TransferSpec.UpdateBalances` gives |
| `Db.Store.TransferWork` | db/sqlc/store.go:65-121 | the closure leaves the state, result, error and log that `TransferSpec.Work` gives |
| `Db.Store.Restore` | db/sqlc/store.go:33 | rolling back puts the balance, transfer and entry tables back exactly as they were saved at begin, and logs no call |
| `Db.Store.ExecTx` | db/sqlc/store.go:23-41 | saving the tables at begin, restoring them on rollback (and on a failed commit whose writes did not persist), and the begin/rollback/commit branches leave the state, error and log that `TransferSpec.ExecTx` gives for this work |
| `Db.Store.TransferTx` | db/sqlc/store.go:62-124 | the transfer transaction matches `TransferSpec.TransferTx`; on success the transfer's effect is applied, exactly the five calls were logged and the from-account is the from-balance after the transfer; after a failed commit the tables are as before or with the transfer applied; on any other error whose rollback did not fail the tables are as before |

## Left out

- Concurrency, isolation levels and row locks are not modelled. Neither is the deadlock that the ascending-id order prevents between concurrent transfers. Only the sequential order of the calls is modelled.
- Context propagation and cancellation are not modelled, because the model has no clock and no cancellation. `addMoney` is even called with `context.Background()` rather than the caller's context (store.go:106, 111).
- The `txKey` context value and the `fmt.Println` logging (store.go:59, 68-70) are not modelled, because they only produce output.
- `int64` overflow is not modelled. Amounts and balances are unbounded integers. This includes negating the most negative `int64` at store.go:85, 106 and 111.
- The bodies of the generated queries are not part of this model. So are the row ids and creation times the store assigns to transfers and entries, and the owner and currency of accounts. Creating a transfer or an entry fails only when a flag says so; foreign-key checks are not modelled.
- The state after a failed rollback is store-defined. The model leaves the work's writes in place (the least favourable case). Whether a failed commit took effect is also store-defined; the model leaves it to a flag (`TxFaults.commitPersisted`), so every statement about a failed commit covers both outcomes. Both cases are reported as errors.
- The source builds the combined rollback error by formatting both messages into one string. The model keeps the two causes as a structured value (`TxAndRollback`).
- `execTx` takes its unit of work as a function value. Dafny methods cannot be passed as values, so `Db.Store.ExecTx` runs the one unit of work this code passes it: the transfer closure. The wrapper's decisions are stated for any unit of work in `TransferSpec.ExecTx`.
- The JSON field tags of the result struct are not modelled.
- `util/random.go` is not part of this model. It only generates random test data from a clock-seeded generator.
