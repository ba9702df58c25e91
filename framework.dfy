/** The framework facade of the curator client: its Latent -> Started -> Stopped
    lifecycle, the start and teardown sequences it runs against its collaborators,
    the listener fan-out on close, the builder factories guarded by the lifecycle,
    and the configuration builder that creates it.

    The Go state flag is updated with an atomic compare-and-swap; here it is a plain
    field read and a conditional write. The connection client and the connection
    state manager are known only by the results of their Start and Close calls,
    which are passed in. The calls the framework makes on them, the callbacks it makes
    on its curator listeners and the error line it logs are recorded, in order, in
    the field `calls`. */
module Curator {

  // ---------------------------------------------------------------------------
  // The lifecycle state and its transitions, as values
  // ---------------------------------------------------------------------------

  /** The framework's lifecycle state (LATENT, STARTED, STOPPED in the source). */
  datatype State = Latent | Started | Stopped

  /** The integer each state is stored as: the constants are declared with iota. */
  function Ordinal(s: State): int
  {
    match s
    case Latent => 0
    case Started => 1
    case Stopped => 2
  }

  /** The only two calls that can change the state. */
  datatype Op = StartOp | CloseOp

  /** The two edges of the lifecycle. */
  predicate IsLifecycleEdge(from: State, to: State)
  {
    (from == Latent && to == Started) || (from == Started && to == Stopped)
  }

  /** The state after one call: Start swaps Latent for Started and Close swaps
      Started for Stopped; in every other state the swap fails and nothing changes. */
  function Next(s: State, op: Op): (t: State)
    ensures Ordinal(s) <= Ordinal(t)
    ensures t == s || IsLifecycleEdge(s, t)
    ensures op == StartOp ==> (t != s <==> s == Latent)
    ensures op == CloseOp ==> (t != s <==> s == Started)
  {
    match op
    case StartOp => if s == Latent then Started else s
    case CloseOp => if s == Started then Stopped else s
  }

  /** The state after a sequence of calls, first call first. */
  function Run(s: State, ops: seq<Op>): State
    decreases |ops|
  {
    if ops == [] then s else Run(Next(s, ops[0]), ops[1..])
  }

  /** A state change as a pair of states. */
  datatype Edge = Edge(from: State, to: State)

  /** The state changes a sequence of calls actually makes, in order. */
  function EdgesTaken(s: State, ops: seq<Op>): seq<Edge>
    decreases |ops|
  {
    if ops == [] then []
    else
      var t := Next(s, ops[0]);
      (if t != s then [Edge(s, t)] else []) + EdgesTaken(t, ops[1..])
  }

  /** The state changes still possible from a state, in the only order they can happen. */
  function Remaining(s: State): (r: seq<Edge>)
    ensures forall k :: 0 <= k < |r| ==> IsLifecycleEdge(r[k].from, r[k].to)
  {
    match s
    case Latent => [Edge(Latent, Started), Edge(Started, Stopped)]
    case Started => [Edge(Started, Stopped)]
    case Stopped => []
  }

  /** Whatever Start and Close calls are made, the edges taken, followed by the edges
      still possible at the end, are exactly the edges possible at the beginning: the
      edges taken are a prefix of Latent -> Started, Started -> Stopped, so each is
      taken at most once and the state never returns to an earlier value. */
  lemma {:induction false} EdgesTakenArePrefix(s: State, ops: seq<Op>)
    ensures Remaining(s) == EdgesTaken(s, ops) + Remaining(Run(s, ops))
    ensures Ordinal(s) <= Ordinal(Run(s, ops))
    decreases |ops|
  {
    if ops != [] {
      var t := Next(s, ops[0]);
      EdgesTakenArePrefix(t, ops[1..]);
      assert Remaining(s) == (if t != s then [Edge(s, t)] else []) + Remaining(t);
    }
  }

  /** Running two sequences of calls one after the other. */
  lemma {:induction false} RunAppend(s: State, a: seq<Op>, b: seq<Op>)
    ensures Run(s, a + b) == Run(Run(s, a), b)
    decreases |a|
  {
    if a != [] {
      assert (a + b)[0] == a[0];
      assert (a + b)[1..] == a[1..] + b;
      RunAppend(Next(s, a[0]), a[1..], b);
    } else {
      assert a + b == b;
    }
  }

  /** Without a Start call a latent framework stays latent. */
  lemma {:induction false} LatentWithoutStart(ops: seq<Op>)
    requires StartOp !in ops
    ensures Run(Latent, ops) == Latent
    decreases |ops|
  {
    if ops != [] {
      assert ops[0] == CloseOp;
      assert StartOp !in ops[1..];
      LatentWithoutStart(ops[1..]);
    }
  }

  /** A started framework is stopped by the first Close call and by nothing else. */
  lemma {:induction false} StartedUntilClose(ops: seq<Op>)
    ensures Run(Started, ops) == (if CloseOp in ops then Stopped else Started)
    decreases |ops|
  {
    if ops != [] {
      if ops[0] == CloseOp {
        StoppedForever(ops[1..]);
      } else {
        assert CloseOp in ops <==> CloseOp in ops[1..];
        StartedUntilClose(ops[1..]);
      }
    }
  }

  /** A stopped framework stays stopped whatever is called. */
  lemma {:induction false} StoppedForever(ops: seq<Op>)
    ensures Run(Stopped, ops) == Stopped
    decreases |ops|
  {
    if ops != [] {
      StoppedForever(ops[1..]);
    }
  }

  /** The position of the first occurrence of an element. */
  function FirstIndex(ops: seq<Op>, op: Op): (i: nat)
    requires op in ops
    ensures i < |ops| && ops[i] == op && op !in ops[..i]
  {
    if ops[0] == op then 0
    else
      var j := FirstIndex(ops[1..], op);
      assert ops[1..][..j] == ops[1..j + 1];
      1 + j
  }

  /** From a new framework, the state after any sequence of calls: latent until the
      first Start, started from then until the first Close after it, stopped after
      that. In particular the framework is started (`Started()` holds) exactly in the
      window between the first Start and the next Close. */
  lemma LifecycleOfNewFramework(ops: seq<Op>)
    ensures StartOp !in ops ==> Run(Latent, ops) == Latent
    ensures StartOp in ops ==>
      var i := FirstIndex(ops, StartOp);
      Run(Latent, ops) == (if CloseOp in ops[i + 1..] then Stopped else Started)
  {
    if StartOp !in ops {
      LatentWithoutStart(ops);
    } else {
      var i := FirstIndex(ops, StartOp);
      assert ops == ops[..i] + ([ops[i]] + ops[i + 1..]);
      RunAppend(Latent, ops[..i], [ops[i]] + ops[i + 1..]);
      LatentWithoutStart(ops[..i]);
      assert Run(Latent, [ops[i]] + ops[i + 1..]) == Run(Started, ops[i + 1..]);
      StartedUntilClose(ops[i + 1..]);
    }
  }

  // ---------------------------------------------------------------------------
  // Errors, listeners, events and the calls the framework makes
  // ---------------------------------------------------------------------------

  /** A Go error value: nil, or an error with its message. */
  datatype Error = Nil | Err(message: string)

  const AlreadyStartedMessage: string := "Cannot be started more than once"
  const StateManagerStartPrefix: string := "fail to start state manager, "
  const ClientStartPrefix: string := "fail to start client, "
  const StateManagerClosePrefix: string := "fail to close state manager, "

  /** A registered curator listener, known by its identity. */
  datatype CuratorListener = CuratorListener(id: nat)

  /** A registered unhandled-error listener, known by its identity. */
  datatype UnhandledErrorListener = UnhandledErrorListener(id: nat)

  /** The event kinds the framework itself produces (the full list of kinds is
      declared in a file that is not part of this model). */
  datatype CuratorEventType = Watched | Closing

  datatype CuratorEvent = CuratorEvent(eventType: CuratorEventType, path: string)

  /** The event sent to every curator listener on close: only its type is set. */
  const ClosingEvent: CuratorEvent := CuratorEvent(Closing, "")

  /** A call the framework makes into code outside this model. */
  datatype Call =
    | StartStateManager
    | StartClient
    | EventReceived(listener: CuratorListener, event: CuratorEvent)
    | CloseStateManager
    | CloseClient
    | LogError(message: string)

  /** Delivering one event to every listener of a container, in container order. */
  function Fanout(ls: seq<CuratorListener>, event: CuratorEvent): (r: seq<Call>)
    ensures |r| == |ls|
    ensures forall k :: 0 <= k < |ls| ==> r[k] == EventReceived(ls[k], event)
  {
    if ls == [] then []
    else Fanout(ls[..|ls| - 1], event) + [EventReceived(ls[|ls| - 1], event)]
  }

  /** How many times a call occurs in a sequence of calls. */
  function Count(calls: seq<Call>, c: Call): nat
  {
    if calls == [] then 0
    else Count(calls[..|calls| - 1], c) + (if calls[|calls| - 1] == c then 1 else 0)
  }

  lemma {:induction false} CountAppend(a: seq<Call>, b: seq<Call>, c: Call)
    ensures Count(a + b, c) == Count(a, c) + Count(b, c)
    decreases |b|
  {
    if b == [] {
      assert a + b == a;
    } else {
      var init := b[..|b| - 1];
      assert (a + b)[..|a + b| - 1] == a + init;
      CountAppend(a, init, c);
    }
  }

  /** A fan-out makes no call other than EventReceived. */
  lemma {:induction false} FanoutOnlyDelivers(ls: seq<CuratorListener>, event: CuratorEvent, c: Call)
    requires !c.EventReceived?
    ensures Count(Fanout(ls, event), c) == 0
    decreases |ls|
  {
    if ls != [] {
      var init := ls[..|ls| - 1];
      FanoutOnlyDelivers(init, event, c);
      var r := Fanout(ls, event);
      assert r[..|r| - 1] == Fanout(init, event);
    }
  }

  /** Every listener registered at close time receives the closing event once per
      registration. */
  lemma FanoutDeliversOncePerRegistration(ls: seq<CuratorListener>, event: CuratorEvent, l: CuratorListener)
    ensures multiset(Fanout(ls, event))[EventReceived(l, event)] == multiset(ls)[l]
    decreases |ls|
  {
    if ls != [] {
      var init := ls[..|ls| - 1];
      FanoutDeliversOncePerRegistration(init, event, l);
      assert ls == init + [ls[|ls| - 1]];
    }
  }

  /** What a failing state-manager close leaves behind: one error log line. */
  function TeardownLog(stateManagerResult: Error): (r: seq<Call>)
    ensures |r| <= 1
    ensures r != [] <==> stateManagerResult.Err?
  {
    if stateManagerResult.Err?
    then [LogError(StateManagerClosePrefix + stateManagerResult.message)]
    else []
  }

  /** One more listener delivered: the fan-out over a longer prefix. */
  lemma FanoutStep(ls: seq<CuratorListener>, i: nat, event: CuratorEvent)
    requires i < |ls|
    ensures Fanout(ls[..i + 1], event) == Fanout(ls[..i], event) + [EventReceived(ls[i], event)]
  {
    assert ls[..i + 1][..i] == ls[..i];
  }

  /** What the calls made so far say about the state: nothing is called before the
      effective Start, which starts the state manager once (and the client at most
      once), and the collaborators are closed once, on the effective Close. */
  ghost predicate CallsAgree(s: State, calls: seq<Call>)
  {
    && (s == Latent ==> calls == [])
    && Count(calls, StartStateManager) == (if s == Latent then 0 else 1)
    && Count(calls, StartClient) <= 1
    && Count(calls, CloseStateManager) == (if s == Stopped then 1 else 0)
    && Count(calls, CloseClient) == (if s == Stopped then 1 else 0)
  }

  /** The calls of an effective Close keep the calls in agreement with the state,
      and start nothing: both start counts are the ones before the Close. */
  lemma CloseKeepsAgreement(before: seq<Call>, ls: seq<CuratorListener>, stateManagerResult: Error)
    requires CallsAgree(Started, before)
    ensures CallsAgree(Stopped, before + Fanout(ls, ClosingEvent) + [CloseStateManager]
                                + TeardownLog(stateManagerResult) + [CloseClient])
    ensures var after := before + Fanout(ls, ClosingEvent) + [CloseStateManager]
                         + TeardownLog(stateManagerResult) + [CloseClient];
            && Count(after, StartStateManager) == Count(before, StartStateManager)
            && Count(after, StartClient) == Count(before, StartClient)
  {
    var f := Fanout(ls, ClosingEvent);
    var log := TeardownLog(stateManagerResult);
    forall c | c in {StartStateManager, StartClient, CloseStateManager, CloseClient}
      ensures Count(before + f + [CloseStateManager] + log + [CloseClient], c)
              == Count(before, c) + (if c == CloseStateManager || c == CloseClient then 1 else 0)
    {
      FanoutOnlyDelivers(ls, ClosingEvent, c);
      CountAppend(before, f, c);
      CountAppend(before + f, [CloseStateManager], c);
      CountAppend(before + f + [CloseStateManager], log, c);
      CountAppend(before + f + [CloseStateManager] + log, [CloseClient], c);
      assert Count([CloseStateManager], c) == (if c == CloseStateManager then 1 else 0);
      assert Count([CloseClient], c) == (if c == CloseClient then 1 else 0);
    }
  }

  /** The calls of an effective Start keep the calls in agreement with the state. */
  lemma StartKeepsAgreement(before: seq<Call>, started: seq<Call>)
    requires CallsAgree(Latent, before)
    requires started == [StartStateManager] || started == [StartStateManager, StartClient]
    ensures CallsAgree(Started, before + started)
  {
    assert before + started == started;
    assert started == [StartStateManager] ==> Count(started, StartClient) == 0;
  }

  // ---------------------------------------------------------------------------
  // Configuration values
  // ---------------------------------------------------------------------------

  newtype byte = b: int | 0 <= b < 256

  /** One connection authorization: a scheme and its credentials. */
  datatype AuthInfo = AuthInfo(scheme: string, auth: seq<byte>)

  /** The source of the server list: unset, or a fixed connection string. */
  datatype EnsembleProvider = NoEnsembleProvider | FixedEnsembleProvider(connectionString: string)

  /** The managed ZooKeeper client, known by what it is constructed from. */
  datatype ZookeeperClient = ZookeeperClient(ensembleProvider: EnsembleProvider, authInfos: seq<AuthInfo>, canBeReadOnly: bool)

  /** The version a delete, set-data or set-ACL builder starts with: any version. */
  const AnyVersion: int := -1

  /** The operation builders the framework hands out, each bound to its framework. */
  datatype Builder =
    | CreateBuilder(client: CuratorFramework)
    | DeleteBuilder(client: CuratorFramework, version: int)
    | CheckExistsBuilder(client: CuratorFramework)
    | GetDataBuilder(client: CuratorFramework)
    | SetDataBuilder(client: CuratorFramework, version: int)
    | GetChildrenBuilder(client: CuratorFramework)
    | GetACLBuilder(client: CuratorFramework)
    | SetACLBuilder(client: CuratorFramework, version: int)
    | CuratorTransaction(client: CuratorFramework)
    | SyncBuilder(client: CuratorFramework)

  /** The facade the namespace cache keeps for a namespace of a framework; the cache
      hands out one facade per namespace, so the facade is determined by the pair. */
  datatype NamespaceFacade = NamespaceFacade(client: CuratorFramework, namespace: string)

  // ---------------------------------------------------------------------------
  // The configuration builder
  // ---------------------------------------------------------------------------

  class CuratorFrameworkBuilder {
    var authInfos: seq<AuthInfo>
    var ensembleProvider: EnsembleProvider
    var defaultData: seq<byte>
    var namespace: string
    var canBeReadOnly: bool

    /** A builder with every option at its zero value. */
    constructor ()
      ensures authInfos == [] && ensembleProvider == NoEnsembleProvider
      ensures defaultData == [] && namespace == "" && !canBeReadOnly
    {
      authInfos := [];
      ensembleProvider := NoEnsembleProvider;
      defaultData := [];
      namespace := "";
      canBeReadOnly := false;
    }

    /** Replaces the ensemble provider with a fixed one holding the connection string;
        returns the builder itself for chaining. */
    method ConnectString(connectString: string) returns (self: CuratorFrameworkBuilder)
      modifies this`ensembleProvider
      ensures ensembleProvider == FixedEnsembleProvider(connectString)
      ensures self == this
    {
      ensembleProvider := FixedEnsembleProvider(connectString);
      self := this;
    }

    /** Appends one authorization after the ones already given; returns the builder
        itself for chaining. */
    method Authorization(scheme: string, auth: seq<byte>) returns (self: CuratorFrameworkBuilder)
      modifies this`authInfos
      ensures authInfos == old(authInfos) + [AuthInfo(scheme, auth)]
      ensures self == this
    {
      authInfos := authInfos + [AuthInfo(scheme, auth)];
      self := this;
    }

    /** A new, latent framework configured from the current values. */
    method Build() returns (c: CuratorFramework)
      ensures fresh(c) && c.Valid()
      ensures c.state == Latent && c.calls == []
      ensures c.listeners == [] && c.unhandledErrorListeners == []
      ensures c.client == ZookeeperClient(ensembleProvider, authInfos, canBeReadOnly)
      ensures c.namespace == namespace && c.defaultData == defaultData
    {
      c := new CuratorFramework(this);
    }
  }

  /** A latent framework for a connection string, with every other option at its
      default. */
  method NewClient(connString: string) returns (c: CuratorFramework)
    ensures fresh(c) && c.Valid()
    ensures c.state == Latent && c.calls == []
    ensures c.listeners == [] && c.unhandledErrorListeners == []
    ensures c.client == ZookeeperClient(FixedEnsembleProvider(connString), [], false)
    ensures c.namespace == "" && c.defaultData == []
  {
    var b := new CuratorFrameworkBuilder();
    b := b.ConnectString(connString);
    c := b.Build();
  }

  // ---------------------------------------------------------------------------
  // The framework
  // ---------------------------------------------------------------------------

  class CuratorFramework {
    var state: State
    var listeners: seq<CuratorListener>
    var unhandledErrorListeners: seq<UnhandledErrorListener>
    /** Every call made into code outside this model, oldest first. */
    var calls: seq<Call>
    const client: ZookeeperClient
    const defaultData: seq<byte>
    const namespace: string

    /** Before Start nothing has been called; the effective Start starts the state
        manager once and the client at most once; the effective Close tears both
        down once. */
    ghost predicate Valid()
      reads this
    {
      CallsAgree(state, calls)
    }

    /** A latent framework with empty listener containers, configured from the builder. */
    constructor (b: CuratorFrameworkBuilder)
      ensures Valid()
      ensures state == Latent && calls == []
      ensures listeners == [] && unhandledErrorListeners == []
      ensures client == ZookeeperClient(b.ensembleProvider, b.authInfos, b.canBeReadOnly)
      ensures namespace == b.namespace && defaultData == b.defaultData
    {
      state := Latent;
      listeners := [];
      unhandledErrorListeners := [];
      calls := [];
      client := ZookeeperClient(b.ensembleProvider, b.authInfos, b.canBeReadOnly);
      defaultData := b.defaultData;
      namespace := b.namespace;
    }

    /** Compare-and-swap on the state: swaps in `newState` exactly when the state is
        `oldState`, and reports whether it did. */
    method Change(oldState: State, newState: State) returns (swapped: bool)
      requires IsLifecycleEdge(oldState, newState)
      modifies this`state
      ensures Ordinal(old(state)) <= Ordinal(state)
      ensures swapped <==> old(state) == oldState
      ensures state == if swapped then newState else old(state)
    {
      swapped := state == oldState;
      if swapped {
        state := newState;
      }
    }

    /** The current state. */
    function CurrentState(): (s: State)
      reads this
      ensures s == state
    {
      state
    }

    /** Whether the framework is started. */
    predicate IsStarted()
      reads this
      ensures IsStarted() <==> state == Started
    {
      CurrentState() == Started
    }

    /** Start: from Latent, commits Started first and then starts the state manager
        and, if that succeeded, the client; a failure of either is reported but the
        framework stays Started. From any other state it fails with the
        "more than once" error and calls nothing. */
    method Start(stateManagerResult: Error, clientResult: Error) returns (err: Error)
      requires Valid()
      modifies this`state, this`calls
      ensures Valid()
      ensures state == Next(old(state), StartOp)
      ensures old(state) != Latent ==> err == Err(AlreadyStartedMessage) && calls == old(calls)
      ensures old(state) == Latent && stateManagerResult.Err? ==>
        && calls == old(calls) + [StartStateManager]
        && err == Err(StateManagerStartPrefix + stateManagerResult.message)
      ensures old(state) == Latent && stateManagerResult.Nil? ==>
        && calls == old(calls) + [StartStateManager, StartClient]
        && err == (if clientResult.Err? then Err(ClientStartPrefix + clientResult.message) else Nil)
    {
      var swapped := Change(Latent, Started);
      if !swapped {
        return Err(AlreadyStartedMessage);
      }
      ghost var before := calls;
      calls := calls + [StartStateManager];
      if stateManagerResult.Err? {
        StartKeepsAgreement(before, [StartStateManager]);
        return Err(StateManagerStartPrefix + stateManagerResult.message);
      }
      calls := calls + [StartClient];
      StartKeepsAgreement(before, [StartStateManager, StartClient]);
      if clientResult.Err? {
        return Err(ClientStartPrefix + clientResult.message);
      }
      return Nil;
    }

    /** Close: from Started, commits Stopped, sends the closing event to every curator
        listener in container order, empties both listener containers, closes the
        state manager (a failure there is only logged) and returns the client's close
        result. From any other state it returns nil and changes nothing. */
    method Close(stateManagerResult: Error, clientResult: Error) returns (err: Error)
      requires Valid()
      modifies this`state, this`calls, this`listeners, this`unhandledErrorListeners
      ensures Valid()
      ensures state == Next(old(state), CloseOp)
      ensures old(state) != Started ==>
        && err == Nil
        && calls == old(calls)
        && listeners == old(listeners)
        && unhandledErrorListeners == old(unhandledErrorListeners)
      ensures old(state) == Started ==>
        && listeners == [] && unhandledErrorListeners == []
        && calls == old(calls) + Fanout(old(listeners), ClosingEvent) + [CloseStateManager]
                    + TeardownLog(stateManagerResult) + [CloseClient]
        && err == clientResult
    {
      var swapped := Change(Started, Stopped);
      if !swapped {
        return Nil;
      }
      ghost var before := calls;
      DispatchToListeners(ClosingEvent);
      listeners := [];
      unhandledErrorListeners := [];
      calls := calls + [CloseStateManager];
      if stateManagerResult.Err? {
        calls := calls + [LogError(StateManagerClosePrefix + stateManagerResult.message)];
      }
      calls := calls + [CloseClient];
      assert calls == before + Fanout(old(listeners), ClosingEvent) + [CloseStateManager]
                      + TeardownLog(stateManagerResult) + [CloseClient];
      CloseKeepsAgreement(before, old(listeners), stateManagerResult);
      err := clientResult;
    }

    /** Sends an event to every curator listener, in container order: the listener
        container's ForEach. */
    method DispatchToListeners(event: CuratorEvent)
      requires state == Stopped
      modifies this`calls
      ensures calls == old(calls) + Fanout(listeners, event)
      ensures old(Valid()) ==> Valid()
    {
      var i := 0;
      while i < |listeners|
        invariant 0 <= i <= |listeners|
        invariant calls == old(calls) + Fanout(listeners[..i], event)
      {
        FanoutStep(listeners, i, event);
        calls := calls + [EventReceived(listeners[i], event)];
        i := i + 1;
      }
      assert listeners[..i] == listeners;
      forall c | c in {StartStateManager, StartClient, CloseStateManager, CloseClient}
        ensures Count(calls, c) == Count(old(calls), c)
      {
        FanoutOnlyDelivers(listeners, event, c);
        CountAppend(old(calls), Fanout(listeners, event), c);
      }
    }

    /** Registers a curator listener at the end of its container. */
    method AddCuratorListener(l: CuratorListener)
      requires Valid()
      modifies this`listeners
      ensures Valid()
      ensures listeners == old(listeners) + [l]
    {
      listeners := listeners + [l];
    }

    /** Registers an unhandled-error listener at the end of its container. */
    method AddUnhandledErrorListener(l: UnhandledErrorListener)
      requires Valid()
      modifies this`unhandledErrorListeners
      ensures Valid()
      ensures unhandledErrorListeners == old(unhandledErrorListeners) + [l]
    {
      unhandledErrorListeners := unhandledErrorListeners + [l];
    }

    // The builder factories; each panics unless the framework is started.

    method Create() returns (b: Builder)
      requires state == Started
      ensures b.CreateBuilder? && b.client == this
    {
      b := CreateBuilder(this);
    }

    method Delete() returns (b: Builder)
      requires state == Started
      ensures b.DeleteBuilder? && b.client == this && b.version == AnyVersion
    {
      b := DeleteBuilder(this, AnyVersion);
    }

    method CheckExists() returns (b: Builder)
      requires state == Started
      ensures b.CheckExistsBuilder? && b.client == this
    {
      b := CheckExistsBuilder(this);
    }

    method GetData() returns (b: Builder)
      requires state == Started
      ensures b.GetDataBuilder? && b.client == this
    {
      b := GetDataBuilder(this);
    }

    method SetData() returns (b: Builder)
      requires state == Started
      ensures b.SetDataBuilder? && b.client == this && b.version == AnyVersion
    {
      b := SetDataBuilder(this, AnyVersion);
    }

    method GetChildren() returns (b: Builder)
      requires state == Started
      ensures b.GetChildrenBuilder? && b.client == this
    {
      b := GetChildrenBuilder(this);
    }

    method GetACL() returns (b: Builder)
      requires state == Started
      ensures b.GetACLBuilder? && b.client == this
    {
      b := GetACLBuilder(this);
    }

    method SetACL() returns (b: Builder)
      requires state == Started
      ensures b.SetACLBuilder? && b.client == this && b.version == AnyVersion
    {
      b := SetACLBuilder(this, AnyVersion);
    }

    method InTransaction() returns (b: Builder)
      requires state == Started
      ensures b.CuratorTransaction? && b.client == this
    {
      b := CuratorTransaction(this);
    }

    method Sync() returns (b: Builder)
      requires state == Started
      ensures b.SyncBuilder? && b.client == this
    {
      b := SyncBuilder(this);
    }

    /** The cached facade for a namespace; panics unless the framework is started. */
    method UsingNamespace(newNamespace: string) returns (f: NamespaceFacade)
      requires state == Started
      ensures f.client == this && f.namespace == newNamespace
    {
      f := NamespaceFacade(this, newNamespace);
    }

    /** The facade without a namespace; it goes through UsingNamespace and so panics
        unless the framework is started. */
    method NonNamespaceView() returns (f: NamespaceFacade)
      requires state == Started
      ensures f.client == this && f.namespace == ""
    {
      f := UsingNamespace("");
    }
  }

  /** A client scenario: build a framework for one server, start it, register two
      listeners, use it, start it again, then close it twice. */
  method ClientScenario()
  {
    var b := new CuratorFrameworkBuilder();
    b := b.ConnectString("127.0.0.1:2181");
    var c := b.Build();
    var err := c.Start(Nil, Nil);
    assert err == Nil && c.IsStarted();
    c.AddCuratorListener(CuratorListener(1));
    c.AddCuratorListener(CuratorListener(2));
    var children := c.GetChildren();
    var f1 := c.UsingNamespace("config");
    var f2 := c.UsingNamespace("config");
    assert f1 == f2;
    err := c.Start(Nil, Nil);
    assert err == Err(AlreadyStartedMessage);
    err := c.Close(Err("session gone"), Nil);
    assert err == Nil && c.state == Stopped && c.listeners == [];
    assert c.calls == [StartStateManager, StartClient,
                       EventReceived(CuratorListener(1), ClosingEvent),
                       EventReceived(CuratorListener(2), ClosingEvent),
                       CloseStateManager,
                       LogError(StateManagerClosePrefix + "session gone"),
                       CloseClient];
    err := c.Close(Nil, Err("unused"));
    assert err == Nil && |c.calls| == 7;
  }
}
