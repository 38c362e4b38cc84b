# Ignite PHP thin client: transaction handle

This project models the client-side transaction handle of the Apache Ignite
PHP thin client (`Apache\Ignite\Internal\Transaction`) and the three
int-backed enums it uses. A handle is created with a concurrency mode, an
isolation level, a timeout and an optional label; `start` sends a TX_START
request and records the identifier the server returns; `commit`, `rollback`
and the destructor each close the handle and send one TX_END request with a
commit flag.

Layout:

- `wrappers.dfy` — `Option` (PHP's nullable values), `Result` and `Outcome`
  (returning normally or throwing).
- `concurrency_mode.dfy`, `isolation_level.dfy`, `transaction_state.dfy` —
  the three enums as datatypes, each with `Code()` (the backing value) and a
  partial inverse `FromCode`.
- `protocol.dfy` — the `Message` datatype for the two requests (fields in the
  order they are written to the payload), the `Error` datatype, and a
  `Communicator` class that records the requests it is asked to send.
- `lifecycle.dfy` — the handle's behaviour as a pure state machine: `Step`
  gives the handle after one call and the requests the call emits; `Run`
  chains calls. The lemmas about single calls and about arbitrary call
  sequences live here.
- `transaction.dfy` — the `Transaction` class. Configuration fields are
  `const`; `state`, `id` and `startTime` are updated in place. Every
  lifecycle method is proved to agree with `Lifecycle.Step` on the new field
  values and on what it appends to the shared communicator's log, so the
  sequence lemmas of `Lifecycle` hold for the class.

Outside inputs are parameters: `Start` receives the communicator's answer to
TX_START (`Received(value)` with the decoded, nullable integer, or
`TransportFailed`) and the clock reading `now`; `Commit`, `Rollback` and
`Destruct` receive `delivered`, whether the communicator's send succeeds. A
request is appended to the log as soon as it is handed to the communicator,
whether or not the send then fails.

Behaviour of the code that differs from what its comments and the component's
intended design describe, modelled as the code does it:

- `start` never assigns `ACTIVE` (`src/Apache/Ignite/Internal/Transaction.php:137-149`).
  After a successful start the state is still `INACTIVE`, so a second `start`
  sends another TX_START and overwrites the identifier and start time, although
  the doc-comment at line 132 says it does nothing (`Lifecycle.RestartResends`,
  `Lifecycle.NeverActive`).
- The destructor does not catch anything: a failing TX_END send during
  destruction is raised like one from `rollback` (`Transactions.Transaction.Destruct`).
- The identifier returned by TX_START is nullable; if it decodes to null, the
  handle stays without an identifier even though the start succeeded, and
  commit or rollback then sends nothing.

## Model

| member | source | states |
|---|---|---|
| ConcurrencyModes.ConcurrencyMode.Code | src/Apache/Ignite/Transaction/TransactionConcurrencyModeEnum.php:7-11 | every mode's code is in {0, 1}, so it fits the byte written for it |
| ConcurrencyModes.FromCode | src/Apache/Ignite/Transaction/TransactionConcurrencyModeEnum.php:7-11 | an integer decodes to a mode exactly when it is 0 or 1, and the mode decoded has that code |
| ConcurrencyModes.WireCodes | src/Apache/Ignite/Transaction/TransactionConcurrencyModeEnum.php:9-10 | OPTIMISTIC is 0 and PESSIMISTIC is 1 |
| ConcurrencyModes.CodeInjective | src/Apache/Ignite/Transaction/TransactionConcurrencyModeEnum.php:9-10 | two modes with the same code are the same mode |
| ConcurrencyModes.FromCodeOfCode | src/Apache/Ignite/Transaction/TransactionConcurrencyModeEnum.php:7-11 | decoding a mode's code gives the mode back |
| IsolationLevels.IsolationLevel.Code | src/Apache/Ignite/Transaction/TransactionIsolationLevelEnum.php:7-12 | every level's code is in 0..2, so it fits the byte written for it |
| IsolationLevels.FromCode | src/Apache/Ignite/Transaction/TransactionIsolationLevelEnum.php:7-12 | an integer decodes to a level exactly when it is 0, 1 or 2, and the level decoded has that code |
| IsolationLevels.WireCodes | src/Apache/Ignite/Transaction/TransactionIsolationLevelEnum.php:9-11 | READ_COMMITTED is 0, REPEATABLE_READ is 1, SERIALIZABLE is 2 |
| IsolationLevels.CodeInjective | src/Apache/Ignite/Transaction/TransactionIsolationLevelEnum.php:9-11 | two levels with the same code are the same level |
| IsolationLevels.FromCodeOfCode | src/Apache/Ignite/Transaction/TransactionIsolationLevelEnum.php:7-12 | decoding a level's code gives the level back |
| TransactionStates.TransactionState.Code | src/Apache/Ignite/Transaction/TransactionStateEnum.php:7-12 | every state's code is in 0..2 |
| TransactionStates.FromCode | src/Apache/Ignite/Transaction/TransactionStateEnum.php:7-12 | an integer decodes to a state exactly when it is 0, 1 or 2, and the state decoded has that code |
| TransactionStates.WireCodes | src/Apache/Ignite/Transaction/TransactionStateEnum.php:9-11 | INACTIVE is 0, ACTIVE is 1, CLOSED is 2 |
| TransactionStates.CodeInjective | src/Apache/Ignite/Transaction/TransactionStateEnum.php:9-11 | two states with the same code are the same state |
| TransactionStates.FromCodeOfCode | src/Apache/Ignite/Transaction/TransactionStateEnum.php:7-12 | decoding a state's code gives the state back |
| Transactions.Transaction.constructor | src/Apache/Ignite/Internal/Transaction.php:43-49 | for a non-negative timeout, the handle holds the given configuration and communicator, is INACTIVE, and has no identifier and no start time |
| Transactions.Transaction.New | src/Apache/Ignite/Internal/Transaction.php:34-50 | defaults PESSIMISTIC, REPEATABLE_READ, timeout 0, no label; fails with an illegal-argument error exactly when the timeout is negative; on success the accessors return the arguments and the initial state; the communicator is untouched either way |
| Transactions.Transaction.GetIsolationLevel | src/Apache/Ignite/Internal/Transaction.php:71-74 | the returned code decodes to the configured isolation level |
| Transactions.Transaction.GetConcurrencyMode | src/Apache/Ignite/Internal/Transaction.php:79-82 | the returned code decodes to the configured concurrency mode |
| Transactions.Transaction.GetTransactionState | src/Apache/Ignite/Internal/Transaction.php:87-90 | the returned code decodes to the current state |
| Transactions.Transaction.Commit | src/Apache/Ignite/Internal/Transaction.php:103-109 | agrees with the lifecycle step; with an identifier and not CLOSED: state becomes CLOSED and exactly TX_END(id, true) is appended, CLOSED even when the send fails and the failure is raised; otherwise nothing changes and nothing is sent |
| Transactions.Transaction.Rollback | src/Apache/Ignite/Internal/Transaction.php:114-120 | as commit, with TX_END(id, false) |
| Transactions.Transaction.Destruct | src/Apache/Ignite/Internal/Transaction.php:52-58 | as rollback: closes an open handle and sends TX_END(id, false), raising a failed send; a never-started handle sends nothing |
| Transactions.Transaction.Start | src/Apache/Ignite/Internal/Transaction.php:135-152 | agrees with the lifecycle step; from INACTIVE exactly one TX_START(concurrency code, isolation code, timeout, label) is appended; on a reply the decoded value is returned and recorded as the identifier together with the start time; on a failed send the error is raised and nothing is recorded; from any other state null is returned and nothing is sent; the state never changes |
| Transactions.Transaction.End | src/Apache/Ignite/Internal/Transaction.php:154-161 | appends exactly TX_END(id, flag) and raises if the send fails |
| Transactions.StartCommitRollbackDiscard | src/Apache/Ignite/Internal/Transaction.php:34-152 | a default handle that is started, committed, rolled back and discarded sends exactly TX_START(1, 1, 0, null) and TX_END(id, true) |
| Lifecycle.StartFromInactive | src/Apache/Ignite/Internal/Transaction.php:137-149 | from INACTIVE, start emits exactly one TX_START with the fields in order, stays INACTIVE, records identifier and start time on a reply and changes nothing on a failure |
| Lifecycle.StartWhenNotInactive | src/Apache/Ignite/Internal/Transaction.php:137-151 | start from ACTIVE or CLOSED changes nothing and emits nothing |
| Lifecycle.CloseBeforeStart | src/Apache/Ignite/Internal/Transaction.php:52-120 | commit, rollback and the destructor on a handle without identifier change nothing and emit nothing |
| Lifecycle.CloseOpen | src/Apache/Ignite/Internal/Transaction.php:103-120 | on an open handle, commit, rollback and the destructor set CLOSED, keep every other field, and emit one TX_END carrying the identifier, flagged true only for commit |
| Lifecycle.DestructIsRollback | src/Apache/Ignite/Internal/Transaction.php:52-58 | the destructor has the same effect as rollback on every handle |
| Lifecycle.StepFacts | src/Apache/Ignite/Internal/Transaction.php:52-161 | one call keeps the configuration, does nothing on a CLOSED handle, never enters ACTIVE, emits at most one TX_END and only when it closes the handle |
| Lifecycle.RunKeepsConfig | src/Apache/Ignite/Internal/Transaction.php:52-161 | no sequence of calls changes concurrency mode, isolation level, timeout or label |
| Lifecycle.ClosedAbsorbing | src/Apache/Ignite/Internal/Transaction.php:52-152 | from CLOSED, every sequence of calls emits nothing and leaves the handle unchanged |
| Lifecycle.AtMostOneEnd | src/Apache/Ignite/Internal/Transaction.php:52-120 | every sequence of calls emits at most one TX_END, and none from a CLOSED handle, failed sends included |
| Lifecycle.NeverActive | src/Apache/Ignite/Internal/Transaction.php:135-152 | no sequence of calls moves a handle that is not ACTIVE into ACTIVE |
| Lifecycle.RestartResends | src/Apache/Ignite/Internal/Transaction.php:132-152 | two successful starts emit two TX_START requests and leave the second identifier and start time, state INACTIVE |
| Lifecycle.CommitThenRollback | src/Apache/Ignite/Internal/Transaction.php:103-120 | on an open handle, commit then rollback emits only the commit's TX_END and leaves the handle CLOSED |
| Lifecycle.DiscardUnstarted | src/Apache/Ignite/Internal/Transaction.php:52-58 | discarding a never-started handle emits nothing and changes nothing |

The accessors `GetStartTime`, `GetTimeout`, `GetTransactionId` and `GetLabel`
(`src/Apache/Ignite/Internal/Transaction.php:63-66, 95-98, 122-130`) are plain
field reads; what they return after construction is stated by
`Transactions.Transaction.New`, and that the configuration never changes by
`Lifecycle.RunKeepsConfig` and by the fields being `const`.

## Left out

- The binary communicator's framing and transport (`send`, `readTypedObject`)
  and the byte encodings written through `MessageBuffer` (`writeByte`,
  `writeLong`, `writeTypedString`, `writeInteger`, `writeBoolean`): requests are
  kept as `Message` values in the order their fields are written, and the
  begin response arrives as the decoded value.
- Integer widths: timeout and identifier are unbounded integers; the 8-byte
  timeout field and the 4-byte identifier field of TX_END (and any narrowing
  of a 64-bit identifier into it) are not modelled.
- `new DateTime()` is a clock read: it becomes the `now` parameter of `Start`.
- `ArgumentChecker::illegalArgument` is reduced to the `IllegalArgument` error
  value; its message text is not modelled.
- Transactions.Transaction.constructor: requires a non-negative timeout,
  because a Dafny constructor cannot fail; the failing path of the PHP
  constructor is modelled by `Transactions.Transaction.New`.
- Locking: the code has none, so calls on one handle are modelled as
  sequential; concurrent calls from several threads are not modelled.
- The destructor's timing: PHP runs `__destruct` when the object is collected;
  here `Destruct` is an explicit call.
- `src/Apache/Ignite/Transaction/TransactionInterface.php` only declares the
  accessor and lifecycle signatures; its behaviour is that of `Transaction.php`.
