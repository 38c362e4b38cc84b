/** The client-side transaction handle. Its configuration is fixed at
    construction; `state`, `id` and `startTime` are updated in place by the
    lifecycle methods, which hand requests to a shared communicator. Every
    method is proved to do what Lifecycle.Step says, so the sequence lemmas of
    Lifecycle apply to any series of calls on one handle. */
module Transactions {
  import opened Wrappers
  import opened ConcurrencyModes
  import opened IsolationLevels
  import opened TransactionStates
  import opened Protocol
  import opened Lifecycle

  class Transaction {
    const communicator: Communicator
    const concurrencyMode: ConcurrencyMode
    const isolationLevel: IsolationLevel
    const timeout: int
    const txLabel: Option<string>
    var state: TransactionState
    var id: Option<int>
    var startTime: Option<Instant>

    /** The handle's fields as a Lifecycle value. */
    ghost function Snapshot(): Handle
      reads this
    {
      Handle(Config(concurrencyMode, isolationLevel, timeout, txLabel), state, id, startTime)
    }

    /** Builds the handle once the timeout has been checked; `New` is the
        entry point that performs the check. */
    constructor (communicator: Communicator, concurrencyMode: ConcurrencyMode,
                 isolationLevel: IsolationLevel, timeout: int, txLabel: Option<string>)
      requires timeout >= 0
      ensures this.communicator == communicator
      ensures Snapshot() == Initial(Config(concurrencyMode, isolationLevel, timeout, txLabel))
    {
      this.id := None;
      this.communicator := communicator;
      this.isolationLevel := isolationLevel;
      this.concurrencyMode := concurrencyMode;
      this.state := Inactive;
      this.timeout := timeout;
      this.txLabel := txLabel;
      this.startTime := None;
    }

    /** Construction with the source's defaults. A negative timeout raises an
        illegal-argument error and no handle exists; otherwise the handle is
        INACTIVE with no identifier and no start time. Nothing is sent. */
    static method New(communicator: Communicator,
                      concurrencyMode: ConcurrencyMode := Pessimistic,
                      isolationLevel: IsolationLevel := RepeatableRead,
                      timeout: int := 0,
                      txLabel: Option<string> := None)
      returns (r: Result<Transaction, Error>)
      ensures r.Failure? <==> timeout < 0
      ensures r.Failure? ==> r.error == IllegalArgument
      ensures r.Success? ==> fresh(r.value) && r.value.communicator == communicator
      ensures r.Success? ==>
                r.value.Snapshot() == Initial(Config(concurrencyMode, isolationLevel, timeout, txLabel))
      ensures r.Success? ==>
                r.value.GetConcurrencyMode() == concurrencyMode.Code()
                && r.value.GetIsolationLevel() == isolationLevel.Code()
                && r.value.GetTimeout() == timeout && r.value.GetLabel() == txLabel
                && r.value.GetTransactionState() == Inactive.Code()
                && r.value.GetTransactionId() == None && r.value.GetStartTime() == None
      ensures unchanged(communicator)
    {
      if timeout < 0 {
        return Failure(IllegalArgument);
      }
      var t := new Transaction(communicator, concurrencyMode, isolationLevel, timeout, txLabel);
      return Success(t);
    }

    function GetStartTime(): Option<Instant>
      reads this
    {
      startTime
    }

    /** The isolation level's code, which decodes back to the configured level. */
    function GetIsolationLevel(): (code: int)
      ensures IsolationLevels.FromCode(code) == Some(isolationLevel)
    {
      isolationLevel.Code()
    }

    /** The concurrency mode's code, which decodes back to the configured mode. */
    function GetConcurrencyMode(): (code: int)
      ensures ConcurrencyModes.FromCode(code) == Some(concurrencyMode)
    {
      concurrencyMode.Code()
    }

    /** The state's code, which decodes back to the current state. */
    function GetTransactionState(): (code: int)
      reads this
      ensures TransactionStates.FromCode(code) == Some(state)
    {
      state.Code()
    }

    function GetTimeout(): int {
      timeout
    }

    function GetTransactionId(): Option<int>
      reads this
    {
      id
    }

    function GetLabel(): Option<string> {
      txLabel
    }

    /** commit: if the handle has an identifier and is not closed, set CLOSED,
        then send TX_END(id, true). The state is CLOSED even when the send
        fails (`delivered` is false), and the failure is raised. */
    method Commit(delivered: bool) returns (r: Outcome<Error>)
      modifies this, communicator
      ensures Snapshot() == Step(old(Snapshot()), CallCommit).after
      ensures communicator.sent == old(communicator.sent) + Step(old(Snapshot()), CallCommit).emitted
      ensures old(id).Some? && old(state) != Closed ==>
                state == Closed && communicator.sent == old(communicator.sent) + [TxEnd(old(id).value, true)]
      ensures !(old(id).Some? && old(state) != Closed) ==>
                unchanged(this) && communicator.sent == old(communicator.sent)
      ensures r == if old(id).Some? && old(state) != Closed && !delivered then Fail(ClientError) else Pass
    {
      r := Pass;
      if id.Some? && state != Closed {
        state := Closed;
        r := End(true, delivered);
      }
    }

    /** rollback: the same guard and ordering as commit, with TX_END(id, false). */
    method Rollback(delivered: bool) returns (r: Outcome<Error>)
      modifies this, communicator
      ensures Snapshot() == Step(old(Snapshot()), CallRollback).after
      ensures communicator.sent == old(communicator.sent) + Step(old(Snapshot()), CallRollback).emitted
      ensures old(id).Some? && old(state) != Closed ==>
                state == Closed && communicator.sent == old(communicator.sent) + [TxEnd(old(id).value, false)]
      ensures !(old(id).Some? && old(state) != Closed) ==>
                unchanged(this) && communicator.sent == old(communicator.sent)
      ensures r == if old(id).Some? && old(state) != Closed && !delivered then Fail(ClientError) else Pass
    {
      r := Pass;
      if id.Some? && state != Closed {
        state := Closed;
        r := End(false, delivered);
      }
    }

    /** The destructor, called explicitly: the same as rollback. A failure of
        the send is raised, not swallowed. */
    method Destruct(delivered: bool) returns (r: Outcome<Error>)
      modifies this, communicator
      ensures Snapshot() == Step(old(Snapshot()), CallDestruct).after
      ensures communicator.sent == old(communicator.sent) + Step(old(Snapshot()), CallDestruct).emitted
      ensures old(id).Some? && old(state) != Closed ==>
                state == Closed && communicator.sent == old(communicator.sent) + [TxEnd(old(id).value, false)]
      ensures !(old(id).Some? && old(state) != Closed) ==>
                unchanged(this) && communicator.sent == old(communicator.sent)
      ensures r == if old(id).Some? && old(state) != Closed && !delivered then Fail(ClientError) else Pass
    {
      r := Pass;
      if id.Some? && state != Closed {
        state := Closed;
        r := End(false, delivered);
      }
    }

    /** start: from INACTIVE, send TX_START with the concurrency code, the
        isolation code, the timeout and the label; then record the start time
        and the decoded identifier and return it. The state is left INACTIVE.
        A failing send raises before anything is recorded. From any other
        state, return null and send nothing. */
    method Start(reply: Reply, now: Instant) returns (r: Result<Option<int>, Error>)
      modifies this, communicator
      ensures Snapshot() == Step(old(Snapshot()), CallStart(reply, now)).after
      ensures communicator.sent == old(communicator.sent) + Step(old(Snapshot()), CallStart(reply, now)).emitted
      ensures old(state) == Inactive ==>
                communicator.sent == old(communicator.sent)
                                     + [TxStart(concurrencyMode.Code(), isolationLevel.Code(), timeout, txLabel)]
      ensures old(state) == Inactive && reply.Received? ==>
                r == Success(reply.value) && id == reply.value && startTime == Some(now)
      ensures old(state) == Inactive && reply.TransportFailed? ==>
                r == Failure(ClientError) && unchanged(this)
      ensures old(state) != Inactive ==>
                r == Success(None) && unchanged(this) && communicator.sent == old(communicator.sent)
      ensures state == old(state)
    {
      if state == Inactive {
        communicator.Send(TxStart(concurrencyMode.Code(), isolationLevel.Code(), timeout, txLabel));
        match reply
        case TransportFailed =>
          return Failure(ClientError);
        case Received(value) =>
          startTime := Some(now);
          id := value;
          return Success(value);
      }
      return Success(None);
    }

    /** Sends TX_END(id, committed); raises if the communicator fails. */
    method End(committed: bool, delivered: bool) returns (r: Outcome<Error>)
      requires id.Some?
      modifies communicator
      ensures communicator.sent == old(communicator.sent) + [TxEnd(id.value, committed)]
      ensures r == if delivered then Pass else Fail(ClientError)
    {
      communicator.Send(TxEnd(id.value, committed));
      r := if delivered then Pass else Fail(ClientError);
    }
  }

  /** A caller that creates a handle with the defaults, starts it, commits,
      then rolls back and finally discards it: one TX_START and one TX_END
      (with the commit flag) reach the communicator, and the handle ends
      CLOSED. */
  method StartCommitRollbackDiscard(c: Communicator, txId: int, now: Instant)
    modifies c
    ensures c.sent == old(c.sent) + [TxStart(1, 1, 0, None), TxEnd(txId, true)]
  {
    var created := Transaction.New(c);
    var tx := created.value;
    var started := tx.Start(Received(Some(txId)), now);
    assert started == Success(Some(txId));
    var committed := tx.Commit(true);
    var rolledBack := tx.Rollback(true);
    var discarded := tx.Destruct(true);
    assert tx.GetTransactionState() == Closed.Code();
  }
}
