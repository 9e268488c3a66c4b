/** The Provider and its connected components working together. A callback
    in the Provider's set is the bound `indirectHandleSubscription` of one
    `Connect`; `registry` says which. Calling the callbacks of a delivery log is
    `Invoke`; a store notification is the listener the Provider registered
    followed by those calls. */
module Hub {
  import opened Values
  import opened ReduxStore
  import opened Listeners
  import opened ProviderComponent
  import opened ConnectSetup
  import opened DerivedProps
  import opened ChildElement
  import opened ConnectComponent

  /** Every registered Connect is stored under its own callback. */
  ghost predicate WellKeyed(registry: map<CallbackId, Connect>)
  {
    forall cb :: cb in registry ==> registry[cb].callback == cb
  }

  /** Runs `cb(state)` for every delivery, in order; a callback that belongs to
      no registered Connect is skipped. */
  method Invoke(log: seq<Delivery>, registry: map<CallbackId, Connect>)
    requires WellKeyed(registry)
    modifies registry.Values`storeState
    ensures forall cb :: cb in registry ==>
      registry[cb].storeState == LastFor(log, cb, old(registry[cb].storeState))
  {
    var i := 0;
    while i < |log|
      invariant 0 <= i <= |log|
      invariant forall cb :: cb in registry ==>
        LastFor(log[i..], cb, registry[cb].storeState) == LastFor(log, cb, old(registry[cb].storeState))
    {
      var d := log[i];
      assert log[i..][1..] == log[i + 1..];
      if d.callback in registry {
        registry[d.callback].HandleSubscription(d.state);
      }
      i := i + 1;
    }
  }

  /** The store calls the Provider's listener: the Provider flushes (if
      mounted) and the callbacks it calls record the new state. */
  method NotifyStore(provider: Provider, registry: map<CallbackId, Connect>) returns (log: seq<Delivery>)
    requires WellKeyed(registry)
    modifies provider`previousState, registry.Values`storeState
    ensures provider.previousState == if provider.isMounted then provider.store.state else old(provider.previousState)
    // no tearing: every registered callback holds the one state broadcast
    ensures provider.isMounted && old(provider.previousState) != provider.store.state ==>
      log == Broadcast(provider.subscriptions, provider.store.state) &&
      forall cb :: cb in registry && cb in provider.subscriptions ==> registry[cb].storeState == provider.store.state
    // nothing moves on an unchanged state or while unmounted
    ensures !provider.isMounted || old(provider.previousState) == provider.store.state ==> log == []
    ensures forall cb :: cb in registry && (cb !in provider.subscriptions || log == []) ==>
      registry[cb].storeState == old(registry[cb].storeState)
  {
    log := provider.OnStoreNotification();
    Invoke(log, registry);
    forall cb | cb in registry
      ensures registry[cb].storeState == LastFor(log, cb, old(registry[cb].storeState))
      ensures log == [] ==> registry[cb].storeState == old(registry[cb].storeState)
      ensures log == Broadcast(provider.subscriptions, provider.store.state) ==>
        registry[cb].storeState == if cb in provider.subscriptions then provider.store.state else old(registry[cb].storeState)
    {
      BroadcastSettles(provider.subscriptions, provider.store.state, cb, old(registry[cb].storeState));
    }
  }

  /** The connected components hold the state the Provider broadcast last. */
  ghost predicate InSync(provider: Provider, registry: map<CallbackId, Connect>)
    reads provider, registry.Values
  {
    forall cb :: cb in registry && cb in provider.subscriptions ==> registry[cb].storeState == provider.previousState
  }

  /** A dispatch on a mounted Provider's store, which notifies its listener:
      afterwards the Provider holds the new state, and so does every registered
      component it calls whenever the state changed or they were in step
      before, so no update is lost; the others keep theirs. */
  method Dispatch(provider: Provider, registry: map<CallbackId, Connect>, next: Snapshot)
    returns (log: seq<Delivery>)
    requires WellKeyed(registry) && provider.Valid() && provider.isMounted
    modifies provider.store`state, provider`previousState, registry.Values`storeState
    ensures provider.store.state == next && provider.previousState == next
    ensures next != old(provider.previousState) ==> InSync(provider, registry)
    ensures old(InSync(provider, registry)) ==> InSync(provider, registry)
    ensures next == old(provider.previousState) ==> log == []
    // a dispatch that keeps the state object changes no component
    ensures next == old(provider.previousState) ==>
      forall cb :: cb in registry ==> registry[cb].storeState == old(registry[cb].storeState)
    ensures next != old(provider.previousState) ==> log == Broadcast(provider.subscriptions, next)
    // a component the Provider does not call keeps its state
    ensures forall cb :: cb in registry && cb !in provider.subscriptions ==>
      registry[cb].storeState == old(registry[cb].storeState)
  {
    provider.store.Dispatch(next);
    log := NotifyStore(provider, registry);
  }

  /** The state object "" / "a" / "ab" / "abc" of a store whose reducer appends strings. */
  const Empty: Snapshot := 0
  const A: Snapshot := 1
  const AB: Snapshot := 2
  const ABC: Snapshot := 3

  /** A valid configuration: `pure`, no `forwardRef`, default context. */
  const PureConfig := Config(true, false, ReactReduxContext)

  /** A selector returning the state itself, like `state => ({ string: state })`. */
  function ReturnState(sel: SelectorId, state: Snapshot, props: Props): DerivedId
  {
    state
  }

  function ConstSelector(dispatch: DispatchId, options: OptionsId): SelectorId
  {
    0
  }

  /** The setup shared by the examples below: a store in state "", a Provider
      for it, and a pure connected component with callback `cb` that has
      mounted (children mount before their parent, so the Provider has not). */
  method ConnectedChild(cb: CallbackId) returns (provider: Provider, connect: Connect)
    ensures fresh(provider) && fresh(provider.store) && fresh(connect)
    ensures fresh(connect.selectDerivedProps) && fresh(connect.selectChildElement)
    ensures provider.Valid() && provider.store.Valid() && !provider.isMounted && provider.unsubscribe == None
    ensures provider.subscriptions == [cb] && provider.previousState == Empty && provider.store.state == Empty
    ensures connect.Valid() && connect.callback == cb && connect.storeState == Empty && connect.subscription.Some?
    ensures connect.contextValue == provider && connect.selectDerivedProps.select == ReturnState
  {
    var store := new Store(0, Empty);
    provider := new Provider(store);
    var props := new Props(map[]);
    connect := new Connect(PureConfig, 0, 0, cb, ConstSelector, ReturnState, provider, props, None);
    connect.ComponentDidMount();
  }

  /** The same setup after the Provider has mounted as well. */
  method MountedTree(cb: CallbackId) returns (provider: Provider, connect: Connect)
    ensures fresh(provider) && fresh(provider.store) && fresh(connect)
    ensures fresh(connect.selectDerivedProps) && fresh(connect.selectChildElement)
    ensures provider.Valid() && provider.store.Valid() && provider.isMounted
    ensures provider.subscriptions == [cb] && provider.previousState == Empty && provider.store.state == Empty
    ensures connect.Valid() && connect.callback == cb && connect.storeState == Empty && connect.subscription.Some?
    ensures connect.contextValue == provider && connect.selectDerivedProps.select == ReturnState
  {
    provider, connect := ConnectedChild(cb);
    var _ := provider.ComponentDidMount();
  }

  /** Three appends dispatched one after the other with a mounted Provider and
      one connected component: the component records "abc". */
  method AppendThree() returns (connect: Connect)
    ensures fresh(connect.selectDerivedProps) && fresh(connect.selectChildElement)
    ensures connect.Valid() && connect.storeState == ABC && connect.selectDerivedProps.select == ReturnState
  {
    var provider;
    provider, connect := MountedTree(7);
    var registry := map[7 := connect];
    assert 7 in registry && registry[7] == connect;
    var _ := Dispatch(provider, registry, A);
    var _ := Dispatch(provider, registry, AB);
    var _ := Dispatch(provider, registry, ABC);
    assert registry[7].storeState == ABC;
  }

  /** After the three appends the component renders "abc". */
  method RenderAfterAppends() returns (recorded: Snapshot, rendered: DerivedId)
    ensures recorded == ABC && rendered == ABC
  {
    var connect := AppendThree();
    recorded := connect.storeState;
    var e, _ := connect.Render();
    rendered := e.props;
  }

  /** A pure `forwardRef` component rendered twice without any change in
      between returns the very same element and runs no user function the
      second time. */
  method RenderTwice(connect: Connect) returns (first: Element, second: Element)
    requires connect.Valid() && connect.config.pure && connect.config.forwardRef
    modifies connect.selectDerivedProps, connect.selectChildElement
    ensures first == second
  {
    ghost var wp;
    first, wp := connect.Render();
    second, wp := connect.Render();
  }

  /** A dispatch after the Provider was constructed but before it subscribed
      reaches the component through the flush that follows the subscription. */
  method UpdateBeforeSubscription() returns (recorded: Snapshot, deliveries: nat)
    ensures recorded == A && deliveries == 1
  {
    var provider, connect := ConnectedChild(7);
    provider.store.Dispatch(A);
    var log := provider.ComponentDidMount();
    assert log == Broadcast([7], A);
    var registry := map[7 := connect];
    assert 7 in registry && registry[7] == connect;
    Invoke(log, registry);
    BroadcastSettles([7], A, 7, Empty);
    assert registry[7].storeState == LastFor(log, 7, Empty);
    recorded := connect.storeState;
    deliveries := |log|;
  }

  /** After the Provider unmounts, a late call of its listener delivers
      nothing and the component keeps its state. */
  method LateNotificationAfterUnmount() returns (recorded: Snapshot, deliveries: nat)
    ensures recorded == Empty && deliveries == 0
  {
    var provider, connect := MountedTree(7);
    provider.ComponentWillUnmount();
    provider.store.Dispatch(A);
    var registry := map[7 := connect];
    assert 7 in registry && registry[7] == connect;
    var log := NotifyStore(provider, registry);
    assert registry[7].storeState == Empty;
    recorded := connect.storeState;
    deliveries := |log|;
  }

  /** A dispatch that leaves the state object as it was delivers nothing. */
  method SameStateDeliversNothing() returns (recorded: Snapshot, deliveries: nat)
    ensures recorded == Empty && deliveries == 0
  {
    var provider, connect := MountedTree(7);
    var registry := map[7 := connect];
    assert 7 in registry && registry[7] == connect;
    assert InSync(provider, registry);
    var log := Dispatch(provider, registry, Empty);
    assert registry[7].storeState == Empty;
    recorded := connect.storeState;
    deliveries := |log|;
  }

  /** A component that unmounts before a dispatch is not called by it. */
  method UnmountedChildIsSkipped() returns (recorded: Snapshot, deliveries: nat)
    ensures recorded == Empty && deliveries == 0
  {
    var provider, connect := MountedTree(7);
    connect.ComponentWillUnmount();
    assert provider.subscriptions == [] by {
      assert Without([7], 7) == Without([], 7);
    }
    var registry := map[7 := connect];
    assert 7 in registry && registry[7] == connect;
    assert InSync(provider, registry);
    var log := Dispatch(provider, registry, A);
    assert registry[7].storeState == Empty;
    recorded := connect.storeState;
    deliveries := |log|;
  }
}
