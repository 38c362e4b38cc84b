/** The lifecycle of a transaction handle as a pure state machine: what each
    call does to the handle's fields and which requests it hands to the
    communicator. The Transaction class is proved to follow it call by call,
    and the lemmas here state what holds over any sequence of calls. */
module Lifecycle {
  import opened Wrappers
  import opened ConcurrencyModes
  import opened IsolationLevels
  import opened TransactionStates
  import opened Protocol

  /** A wall-clock reading; the model only records which one was taken. */
  type Instant = int

  /** The parameters fixed when the handle is constructed. */
  datatype Config = Config(concurrency: ConcurrencyMode, isolation: IsolationLevel,
                           timeout: int, txLabel: Option<string>)

  /** Everything a handle holds, apart from its communicator. */
  datatype Handle = Handle(config: Config, state: TransactionState,
                           id: Option<int>, startTime: Option<Instant>)

  /** What the communicator does with a TX_START request: either it returns the
      decoded (nullable) integer of the response, or it raises. */
  datatype Reply = Received(value: Option<int>) | TransportFailed

  /** A call on the handle, with the outside world's answer where it has one. */
  datatype Call =
    | CallStart(reply: Reply, now: Instant)
    | CallCommit
    | CallRollback
    | CallDestruct

  /** The handle after a call, and the requests the call handed to the
      communicator (whether or not the communicator then failed). */
  datatype Effect = Effect(after: Handle, emitted: seq<Message>)

  /** A freshly constructed handle. */
  function Initial(cfg: Config): Handle {
    Handle(cfg, Inactive, None, None)
  }

  /** The TX_START request for a configuration. */
  function BeginRequest(cfg: Config): Message {
    TxStart(cfg.concurrency.Code(), cfg.isolation.Code(), cfg.timeout, cfg.txLabel)
  }

  /** The guard shared by commit, rollback and the destructor. */
  predicate Open(h: Handle) {
    h.id.Some? && h.state != Closed
  }

  /** commit / rollback / destructor: if open, mark closed and send one TX_END. */
  function Close(h: Handle, committed: bool): Effect {
    if Open(h) then Effect(h.(state := Closed), [TxEnd(h.id.value, committed)])
    else Effect(h, [])
  }

  function Step(h: Handle, call: Call): Effect {
    match call
    case CallStart(reply, now) =>
      if h.state == Inactive then
        match reply
        case Received(value) => Effect(h.(id := value, startTime := Some(now)), [BeginRequest(h.config)])
        case TransportFailed => Effect(h, [BeginRequest(h.config)])
      else Effect(h, [])
    case CallCommit => Close(h, true)
    case CallRollback => Close(h, false)
    case CallDestruct => Close(h, false)
  }

  /** The calls performed one after another; requests accumulate in order. */
  function Run(h: Handle, calls: seq<Call>): Effect
    decreases |calls|
  {
    if calls == [] then Effect(h, [])
    else
      var first := Step(h, calls[0]);
      var rest := Run(first.after, calls[1..]);
      Effect(rest.after, first.emitted + rest.emitted)
  }

  /** The number of TX_END requests in a log. */
  function EndCount(ms: seq<Message>): nat {
    if ms == [] then 0
    else (if ms[0].TxEnd? then 1 else 0) + EndCount(ms[1..])
  }

  lemma {:induction false} EndCountAppend(a: seq<Message>, b: seq<Message>)
    ensures EndCount(a + b) == EndCount(a) + EndCount(b)
  {
    if a == [] {
      assert a + b == b;
    } else {
      assert (a + b)[1..] == a[1..] + b;
      EndCountAppend(a[1..], b);
    }
  }

  // ---------------------------------------------------------------------
  // One call at a time

  /** start from INACTIVE hands exactly one TX_START to the communicator, with
      the concurrency code, isolation code, timeout and label in that order.
      On a reply it records the identifier and the start time; on a failure
      it changes nothing. In both cases the state stays INACTIVE. */
  lemma StartFromInactive(h: Handle, reply: Reply, now: Instant)
    requires h.state == Inactive
    ensures Step(h, CallStart(reply, now)).emitted
            == [TxStart(h.config.concurrency.Code(), h.config.isolation.Code(), h.config.timeout, h.config.txLabel)]
    ensures Step(h, CallStart(reply, now)).after.state == Inactive
    ensures reply.Received? ==>
              Step(h, CallStart(reply, now)).after == Handle(h.config, Inactive, reply.value, Some(now))
    ensures reply.TransportFailed? ==> Step(h, CallStart(reply, now)).after == h
  {}

  /** start from any other state does nothing. */
  lemma StartWhenNotInactive(h: Handle, reply: Reply, now: Instant)
    requires h.state != Inactive
    ensures Step(h, CallStart(reply, now)) == Effect(h, [])
  {}

  /** commit, rollback and the destructor on a handle that has no identifier
      send nothing and change nothing. */
  lemma CloseBeforeStart(h: Handle, call: Call)
    requires call.CallCommit? || call.CallRollback? || call.CallDestruct?
    requires h.id.None?
    ensures Step(h, call) == Effect(h, [])
  {}

  /** commit on an open handle closes it and sends one TX_END(id, true);
      rollback and the destructor do the same with false. */
  lemma CloseOpen(h: Handle, call: Call)
    requires call.CallCommit? || call.CallRollback? || call.CallDestruct?
    requires Open(h)
    ensures Step(h, call).after == h.(state := Closed)
    ensures Step(h, call).emitted == [TxEnd(h.id.value, call.CallCommit?)]
  {}

  /** The destructor behaves exactly like rollback, whatever the handle. */
  lemma DestructIsRollback(h: Handle)
    ensures Step(h, CallDestruct) == Step(h, CallRollback)
  {}

  /** Facts about one step that the sequence lemmas below are built from. */
  lemma StepFacts(h: Handle, call: Call)
    ensures Step(h, call).after.config == h.config
    ensures h.state == Closed ==> Step(h, call) == Effect(h, [])
    ensures h.state != Active ==> Step(h, call).after.state != Active
    ensures EndCount(Step(h, call).emitted) <= (if h.state == Closed then 0 else 1)
    ensures EndCount(Step(h, call).emitted) == 1 ==> Step(h, call).after.state == Closed
  {}

  // ---------------------------------------------------------------------
  // Any sequence of calls

  /** No call ever changes the concurrency mode, isolation level, timeout or
      label that the handle was constructed with. */
  lemma {:induction false} RunKeepsConfig(h: Handle, calls: seq<Call>)
    ensures Run(h, calls).after.config == h.config
    decreases |calls|
  {
    if calls != [] {
      StepFacts(h, calls[0]);
      RunKeepsConfig(Step(h, calls[0]).after, calls[1..]);
    }
  }

  /** CLOSED is absorbing: once closed, no sequence of calls sends anything or
      changes any field. */
  lemma {:induction false} ClosedAbsorbing(h: Handle, calls: seq<Call>)
    requires h.state == Closed
    ensures Run(h, calls) == Effect(h, [])
    decreases |calls|
  {
    if calls != [] {
      StepFacts(h, calls[0]);
      ClosedAbsorbing(h, calls[1..]);
    }
  }

  /** Over any sequence of calls at most one TX_END is sent, and none at all
      from a closed handle. Since the state is set to CLOSED whether or not
      the communicator then fails, this holds on failing paths too. */
  lemma {:induction false} AtMostOneEnd(h: Handle, calls: seq<Call>)
    ensures EndCount(Run(h, calls).emitted) <= (if h.state == Closed then 0 else 1)
    decreases |calls|
  {
    if calls != [] {
      var first := Step(h, calls[0]);
      StepFacts(h, calls[0]);
      AtMostOneEnd(first.after, calls[1..]);
      EndCountAppend(first.emitted, Run(first.after, calls[1..]).emitted);
    }
  }

  /** start never moves a handle into ACTIVE: no sequence of calls reaches it
      from a state other than ACTIVE. */
  lemma {:induction false} NeverActive(h: Handle, calls: seq<Call>)
    requires h.state != Active
    ensures Run(h, calls).after.state != Active
    decreases |calls|
  {
    if calls != [] {
      StepFacts(h, calls[0]);
      NeverActive(Step(h, calls[0]).after, calls[1..]);
    }
  }

  /** Because the state stays INACTIVE after a successful start, a second start
      sends a second TX_START and overwrites the identifier and start time. */
  lemma RestartResends(cfg: Config, first: Option<int>, second: Option<int>, t1: Instant, t2: Instant)
    ensures Run(Initial(cfg), [CallStart(Received(first), t1), CallStart(Received(second), t2)])
            == Effect(Handle(cfg, Inactive, second, Some(t2)), [BeginRequest(cfg), BeginRequest(cfg)])
  {
    var calls := [CallStart(Received(first), t1), CallStart(Received(second), t2)];
    var h1 := Handle(cfg, Inactive, first, Some(t1));
    assert Step(Initial(cfg), calls[0]) == Effect(h1, [BeginRequest(cfg)]);
    assert calls[1..] == [CallStart(Received(second), t2)];
    assert Run(h1, calls[1..]) == Effect(Handle(cfg, Inactive, second, Some(t2)), [BeginRequest(cfg)]);
  }

  /** commit followed by rollback on an open handle sends only the commit's
      TX_END. */
  lemma CommitThenRollback(h: Handle)
    requires Open(h)
    ensures Run(h, [CallCommit, CallRollback]) == Effect(h.(state := Closed), [TxEnd(h.id.value, true)])
  {
    var calls := [CallCommit, CallRollback];
    assert calls[1..] == [CallRollback];
    assert Run(h.(state := Closed), calls[1..]) == Effect(h.(state := Closed), []);
  }

  /** A never-started handle that is discarded sends nothing. */
  lemma DiscardUnstarted(cfg: Config)
    ensures Run(Initial(cfg), [CallDestruct]) == Effect(Initial(cfg), [])
  {
    assert [CallDestruct][1..] == [];
  }
}
