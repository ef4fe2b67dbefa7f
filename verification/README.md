# Transaction ledger bookkeeping, modelled in Dafny

This project models the part of a transaction-ledger engine that keeps the books. The engine
replays a log of deposits, withdrawals, disputes, resolves and chargebacks against per-client
balances. The model has two layers:

- **`ClientBalance`** (`models.dfy`, module `Models`) is a class with fields `available`,
  `held`, `total` and `locked`. Its five methods check the lock, parse the amount string, run
  checked arithmetic with sign tests and write the fields one at a time. Each method is proved
  equal to a specification function on the `Balance` value: `Deposited`, `Withdrawn`,
  `Disputed`, `Resolved` and `ChargedBack`.
- **`Accountant`** (`processor.dfy`, module `Processor`) is a class that holds:
  - the client balances, one object per client id;
  - the insert-only transaction history;
  - the list of transactions seen, in order;
  - the list of rejected transaction ids.

  `ApplyBookkeeping` is proved equal to the specification function `Bookkeeping` on the
  `Ledger` value. `Export` returns one record per client.
- **`Engine`** (`engine.dfy`) mirrors the run loop. It applies every input transaction in order
  and stops at the first fatal error. `Replay` is the matching function, and the lemmas about a
  whole run are stated over it.

`model_properties.dfy` and `processor_properties.dfy` hold the lemmas about single steps.
`primitives.dfy` holds the id widths (u16 clients, u32 transactions) and the amount arithmetic.
`errors.dfy` holds the error datatype.

Amounts are exact integers of one fixed unit. The worked scenarios count ten-thousandths. The
decimal type's 96-bit mantissa appears as the bound `MAX_AMOUNT = 2^96 - 1`:
- checked addition and subtraction fail only when the exact result leaves that range;
- parsing refuses a value outside it.

The text-to-decimal parser is a parameter (`Parser = string -> Option<int>`). The accountant
receives it at construction.

Where the code departs from an atomic, sign-checked ledger, the model follows the code:
- **Partial writes.** Deposit, dispute and resolve write their first field before the second
  checked addition. When that addition overflows, the first write stays and
  `total == available + held` no longer holds. `OverflowLeavesPartialWrite` shows this from a
  new balance: deposit 2^96 - 1, dispute it, then deposit 1. So the balance equation is
  preserved by every step except one that fails with `ValueOverflow`.
- **No sign check on deposit.** A negative deposit is accepted (`NegativeDepositAccepted`).
  Non-negativity is therefore preserved only when amounts are non-negative.
- **`TxNotFound` is never raised.** A new id is stored before the dispute family looks it up
  (`TxNotFoundUnreachable`). A dispute, resolve or chargeback under an unseen id acts with its
  own amount. With the usual empty amount it is rejected as a malformed amount
  (`UnseenDisputeUsesOwnAmount`).
- **The history is not filtered by client.** A dispute may move the amount of another client's
  transaction (`CrossClientDisputeHonoured`).
- **A malformed amount is a rejection, not a fatal error.** The amount is parsed inside each
  balance operation, so a parse failure is recorded in the rejected list.

## Model

| member | source | states |
|---|---|---|
| `Primitives.ParseAmount` | src/models.rs:53 | A parsed amount is what the parser returned, and it fits the 96-bit mantissa. An in-range parse is passed through unchanged. |
| `Models.ValidateIsUnlocked` | src/models.rs:217-222 | Passes exactly when the balance is unlocked. Otherwise it fails with `AccountLocked` of the balance's own client. |
| `Models.Deposited` | src/models.rs:51-65 | When locked: unchanged, with `AccountLocked`. Succeeds iff unlocked, the amount parses and both sums fit, whatever the amount's sign. On success available and total grow by the amount and held and lock are kept. An unparseable amount gives `MalformedAmount` and changes nothing. If available plus the amount overflows: unchanged, with `ValueOverflow`. If only total plus the amount overflows: available is increased and the result is `ValueOverflow`. |
| `Models.Withdrawn` | src/models.rs:67-104 | When locked: unchanged, with `AccountLocked`. Every failure leaves the balance unchanged. Succeeds iff unlocked, the amount parses, and both available and total minus the amount lie in [0, MAX]. On success both drop by the amount. An unparseable amount gives `MalformedAmount`. A failure after a successful parse is `InsufficientFunds` carrying that amount. |
| `Models.Disputed` | src/models.rs:113-138 | Total and lock are kept. When locked: unchanged. Succeeds iff the amount parses, available minus the amount is in [0, MAX] and the new held fits. On success the amount moves from available to held. An unparseable amount gives `MalformedAmount` and changes nothing. `ValueOverflow` arises exactly when available minus the amount is in [0, MAX] but held plus the amount overflows, and then available is reduced. Every other failure is `InsufficientFunds` carrying the amount and changes nothing. |
| `Models.Resolved` | src/models.rs:147-171 | Total and lock are kept. When locked: unchanged. Succeeds iff the amount parses, held minus the amount is in [0, MAX] and the new available fits. On success the amount moves from held to available. An unparseable amount gives `MalformedAmount` and changes nothing. `ValueOverflow` arises exactly when held minus the amount is in [0, MAX] but available plus the amount overflows, and then held is reduced. Every other failure is `InsufficientFunds` carrying the amount and changes nothing. |
| `Models.ChargedBack` | src/models.rs:180-215 | When locked: unchanged. Every failure leaves the balance unchanged. Succeeds iff the amount parses and held and total minus the amount both lie in [0, MAX]. On success held and total drop by the amount, available is kept and the balance becomes locked. An unparseable amount gives `MalformedAmount`. Every other failure on an unlocked balance is `InsufficientFunds` carrying the amount. |
| `Models.ClientBalance.constructor` | src/models.rs:34-42 | A new balance belongs to the given client, is all zero and is unlocked. |
| `Models.ClientBalance.Deposit` | src/models.rs:51-65 | The fields after the call and the result are exactly those of `Deposited` on the fields before, including the partial write. |
| `Models.ClientBalance.Withdraw` | src/models.rs:67-104 | The fields after the call and the result are exactly those of `Withdrawn` on the fields before. |
| `Models.ClientBalance.Dispute` | src/models.rs:113-138 | The fields after the call and the result are exactly those of `Disputed` on the fields before. |
| `Models.ClientBalance.Resolve` | src/models.rs:147-171 | The fields after the call and the result are exactly those of `Resolved` on the fields before. |
| `Models.ClientBalance.Chargeback` | src/models.rs:180-215 | The fields after the call and the result are exactly those of `ChargedBack` on the fields before. |
| `ModelProperties.LockedAccountIsFrozen` | src/models.rs:217-222 | On a locked balance, each of the five operations fails with `AccountLocked(client)` and changes no field. |
| `ModelProperties.ConsistencyPreserved` | src/models.rs:51-215 | Every operation that does not fail with `ValueOverflow` keeps `total == available + held`. |
| `ModelProperties.BoundsPreserved` | src/models.rs:51-215 | Whatever the outcome, no operation writes a field outside the mantissa range. |
| `ModelProperties.NonNegativityPreserved` | src/models.rs:51-215 | With a non-negative amount, no operation makes a field negative, partial writes included. |
| `ModelProperties.NegativeDepositAccepted` | src/models.rs:51-65 | A deposit of -1 on a new balance succeeds and makes available and total negative. |
| `ModelProperties.OverflowLeavesPartialWrite` | src/models.rs:55-63 | Deposit MAX, dispute it, then deposit 1. The last deposit fails with `ValueOverflow`, yet available has changed and the balance equation is broken. |
| `ModelProperties.DisputeThenResolveRestores` | src/models.rs:113-171 | After a successful dispute, resolving the same amount succeeds and restores the balance exactly, given held was non-negative and every field fits the mantissa. |
| `ModelProperties.ChargebackLocksForever` | src/models.rs:180-222 | A successful chargeback locks the balance and keeps available. Every later operation is then refused with nothing changed. |
| `ModelProperties.DepositScenario` | src/models.rs:257-275 | Deposits of 100.1234, 0.1, 1.0 and 1.1 on a new balance give available = total = 102.3234 with nothing held. |
| `ModelProperties.WithdrawScenario` | src/models.rs:278-285 | Depositing 200.5 and withdrawing 50.5 leaves available = total = 150. |
| `ModelProperties.InsufficientWithdrawScenario` | src/models.rs:288-294 | Withdrawing 100 after a deposit of 50 fails with `InsufficientFunds` and changes nothing. |
| `ModelProperties.DisputeAndResolveScenario` | src/models.rs:307-327 | With 200 deposited and 80 disputed, resolving 90 fails with nothing changed. Resolving 80 restores the balance after the deposit. |
| `ModelProperties.ChargebackScenario` | src/models.rs:329-349 | With 120 deposited and 50 disputed, charging back 51 fails. Charging back 50 leaves total 70, held 0 and the balance locked. |
| `Processor.Recorded` | src/processor.rs:34-38 | After storing, the id is present. Known ids keep their first transaction. A new id maps to the incoming transaction. |
| `Processor.Updated` | src/processor.rs:86-117 | A deposit or withdrawal runs with its own amount. The dispute family runs with the amount of the history entry under its id, and fails with `TxNotFound` when that entry is missing. |
| `Processor.Bookkeeping` | src/processor.rs:31-73 | Fails iff a deposit or withdrawal reuses a stored id; the error is `TxDuplicated` and nothing changes. Otherwise the history gains only this id and keeps every stored entry, and the client is present afterwards. No other client's balance changes. The id is appended to the rejected list exactly when the operation failed. |
| `Processor.Accountant.constructor` | src/processor.rs:20-27 | A new accountant has no clients, no history and no rejections. |
| `Processor.Accountant.UpdateClientBalance` | src/processor.rs:86-117 | The balance object after the call and the result are those of `Updated`. |
| `Processor.Accountant.ApplyBookkeeping` | src/processor.rs:31-73 | The accountant's state after the call is `Bookkeeping` of the state before. On the fatal error the state is unchanged and the error is returned. Balances stay distinct objects, keyed by their own client. |
| `Processor.Accountant.ApplyToClient` | src/processor.rs:48-70 | Only the named client's balance changes. It is created if absent and updated by `Updated`. The id is appended to the rejected list exactly on failure. |
| `Processor.Accountant.Export` | src/processor.rs:77-82 | One record per client, no client twice. Every record is its client's balance, and every client's balance is among the records. |
| `ProcessorProperties.TxNotFoundUnreachable` | src/processor.rs:34-114 | The balance operation of a non-duplicate transaction never fails with `TxNotFound`. |
| `ProcessorProperties.DisputeUsesStoredAmount` | src/processor.rs:94-114 | A dispute, resolve or chargeback under a stored id acts with the stored transaction's amount. |
| `ProcessorProperties.UnseenDisputeUsesOwnAmount` | src/processor.rs:34-114 | Under an unseen id the dispute family is stored and acts with its own amount. An unparseable amount on an unlocked client gives `MalformedAmount` with the balance unchanged. |
| `ProcessorProperties.RejectionLeavesBalance` | src/processor.rs:54-70 | A rejected transaction that is not an overflow leaves its client's balance as it was. |
| `ProcessorProperties.NewClientCreatedEvenIfRejected` | src/processor.rs:54-70 | A client's first non-duplicate transaction creates its balance. If the transaction is rejected, the balance is exactly a new one and the id is appended to the rejected list. |
| `ProcessorProperties.LockedClientsFrozen` | src/processor.rs:54-70 | No step changes the balance of a locked client. |
| `ProcessorProperties.LedgerBoundsPreserved` | src/processor.rs:86-117 | A step keeps every client's fields within the mantissa range. |
| `ProcessorProperties.LedgerConsistencyPreserved` | src/processor.rs:86-117 | If every client had `total == available + held` before, every client still has it after a step whose operation did not fail with `ValueOverflow`. |
| `ProcessorProperties.CrossClientDisputeHonoured` | src/processor.rs:94-100 | A dispute by client 2 under the id of client 1's deposit moves that deposit's amount within client 2's balance. |
| `Engine.Run` | src/ledger.rs:29-40 | The state after the run is `Replay` of the state before. A fatal error is returned and nothing is exported. Otherwise every client's balance is exported once. |
| `Engine.ReplayAppend` | src/ledger.rs:30-33 | Running two inputs in sequence equals running them joined, stopping at the first fatal error. |
| `Engine.ReplayHistoryInsertOnly` | src/processor.rs:34-38 | Over a whole run, no stored transaction is removed or replaced. |
| `Engine.ReplayClientsKept` | src/processor.rs:54-70 | Over a whole run, no client is removed. |
| `Engine.ReplayLockedFrozen` | src/models.rs:180-222 | Over a whole run, a locked client's balance never changes. |
| `Engine.ReplayRejectedExtends` | src/processor.rs:58-68 | Over a whole run, the rejected list is only extended. It gains at most one id per transaction, and every id added is the id of an input transaction. |
| `Engine.ReplayBounded` | src/models.rs:51-215 | Over a whole run, every balance stays within the mantissa range. |
| `Engine.ReplayFatalIsDuplicate` | src/processor.rs:34-45 | A run that fails does so with `TxDuplicated` of an input deposit or withdrawal. |
| `Engine.DepositAfterChargebackScenario` | src/processor.rs:249-268 | Deposit 400 and dispute it, deposit 200, dispute and charge it back, then deposit 500. Client 1 ends with 0 available, 400 held, 400 total, locked. The rejected list is [3]. |

## Left out

- Amounts are integers of one fixed unit. The decimal type's per-value scale, and its rescaling and rounding when a result nears the mantissa bound, are not modelled.
- The decimal parser is a parameter. Which strings it accepts is not modelled, apart from refusing values beyond the mantissa.
- The four-decimal rendering of amounts in exported records (src/models.rs:9-14) is not modelled. `Export` returns the balances themselves.
- `Processor.Accountant.Export` does not model write failures from the sink. Writing a record cannot fail in the model.
- Reading and deserializing the CSV input, and aborting on a malformed row, are not modelled. `Engine.Run` takes already-decoded transactions. Argument handling and the CSV writer (src/main.rs, src/csv_writer.rs) are left out as I/O.
- The interior-mutability wrappers in `apply_bookkeeping` are replaced by direct fields. The trait declarations in src/traits.rs are supplied by the `Accountant` class itself. The error messages in src/errors.rs are not modelled; only the variants are. A parse failure, which the code reports through the decimal library's own error, is the `MalformedAmount` variant.
- The map iteration order in `export` is not modelled. `Export` picks clients in an unspecified order.
- The list of transactions seen (`historical`) is kept as the code keeps it, with a new id recorded twice. No property is built on it.
- ProcessorProperties.LedgerConsistencyPreserved: is stated only for steps that do not fail with `ValueOverflow`. The code's partial writes break the equation on such a step (`OverflowLeavesPartialWrite`).
- ModelProperties.NonNegativityPreserved: is stated only for non-negative amounts, because deposit does not check the sign (`NegativeDepositAccepted`).
