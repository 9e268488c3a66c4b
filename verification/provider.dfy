/** The `Provider` component: one subscription to the store, a set of child
    callbacks, the last state it broadcast, and a mounted flag.

    React is an abstract host here: each lifecycle method is called by the
    environment in React's order (construct, mount, any number of updates,
    unmount), `unstable_batchedUpdates(f)` is simply `f()`, and the callbacks
    are not run inside the broadcast; their calls are returned as a delivery
    log, which `Hub.Invoke` applies to the connected components. */
module ProviderComponent {
  import opened Values
  import opened ReduxStore
  import opened Listeners

  /** The function `store.subscribe` returned: which store, which listener. */
  datatype StoreSubscription = StoreSubscription(store: Store, token: nat)

  /** The function `childSubscribe` returned: it deletes `callback` from the
      callback set of `provider`. */
  datatype ChildSubscription = ChildSubscription(provider: Provider, callback: CallbackId)

  /** The context object `render` provides: the `context` prop when one is
      given, `ReactReduxContext` otherwise. */
  function ProviderContext(custom: Option<ContextObj>): (c: ContextObj)
    ensures custom.None? ==> c == ReactReduxContext
    ensures custom.Some? ==> c == custom.value
  {
    match custom
    case Some(ctx) => ctx
    case None => ReactReduxContext
  }

  class Provider {
    /** `this.state.store`: the store of the context value built by the
        constructor. The context value (`this.state`) is never replaced, so the
        Provider object itself stands for it. */
    const contextStore: Store
    /** `this.props.store`. */
    var store: Store
    /** `this.subscriptions`. */
    var subscriptions: seq<CallbackId>
    /** `this.previousState`. */
    var previousState: Snapshot
    /** `this._isMounted` (undefined, hence false, before the first mount). */
    var isMounted: bool
    /** `this.unsubscribe`. */
    var unsubscribe: Option<StoreSubscription>

    ghost predicate Valid()
      reads this
    {
      NoDup(subscriptions) &&
      (isMounted ==> unsubscribe.Some? && unsubscribe.value.store == store)
    }

    /** The stores this Provider holds a subscription to. */
    function SubscribedStores(): set<Store>
      reads this
    {
      if unsubscribe.Some? then {unsubscribe.value.store} else {}
    }

    constructor (store: Store)
      ensures Valid()
      ensures contextStore == store && this.store == store
      ensures subscriptions == [] && previousState == store.state
      ensures !isMounted && unsubscribe == None
    {
      contextStore := store;
      this.store := store;
      subscriptions := [];
      previousState := store.state;
      isMounted := false;
      unsubscribe := None;
    }

    /** `flushUpdates`: nothing happens when the store returns the object seen
        last; otherwise that object is recorded and every callback registered
        now is called once with it. */
    method FlushUpdates() returns (log: seq<Delivery>)
      modifies this`previousState
      ensures old(previousState) == store.state ==> log == [] && previousState == old(previousState)
      ensures old(previousState) != store.state ==>
        previousState == store.state && log == Broadcast(subscriptions, store.state)
    {
      var state := store.state;
      if state == previousState {
        return [];
      }
      previousState := state;
      log := [];
      var i := 0;
      while i < |subscriptions|
        invariant 0 <= i <= |subscriptions|
        invariant |log| == i
        invariant forall k :: 0 <= k < i ==> log[k] == Delivery(subscriptions[k], state)
      {
        log := log + [Delivery(subscriptions[i], state)];
        i := i + 1;
      }
    }

    /** The listener registered with the store: flushes only while mounted. */
    method OnStoreNotification() returns (log: seq<Delivery>)
      modifies this`previousState
      ensures !isMounted ==> log == [] && previousState == old(previousState)
      ensures isMounted && old(previousState) == store.state ==>
        log == [] && previousState == old(previousState)
      ensures isMounted && old(previousState) != store.state ==>
        previousState == store.state && log == Broadcast(subscriptions, store.state)
    {
      if isMounted {
        log := FlushUpdates();
      } else {
        log := [];
      }
    }

    /** `subscribe`: registers the listener with the current store, then runs
        one flush for updates that arrived before the subscription existed. */
    method Subscribe() returns (log: seq<Delivery>)
      requires store.Valid()
      modifies this`unsubscribe, this`previousState, store`listeners, store`nextToken
      ensures store.Valid()
      ensures unsubscribe.Some? && unsubscribe.value.store == store
      ensures unsubscribe.value.token !in old(store.listeners)
      ensures store.listeners == old(store.listeners) + {unsubscribe.value.token}
      ensures old(previousState) == store.state ==> log == [] && previousState == old(previousState)
      ensures old(previousState) != store.state ==>
        previousState == store.state && log == Broadcast(subscriptions, store.state)
    {
      var token := store.Subscribe();
      unsubscribe := Some(StoreSubscription(store, token));
      log := FlushUpdates();
    }

    /** `componentDidMount`. */
    method ComponentDidMount() returns (log: seq<Delivery>)
      requires Valid() && store.Valid()
      requires !isMounted && unsubscribe == None
      modifies this`isMounted, this`unsubscribe, this`previousState, store`listeners, store`nextToken
      ensures Valid() && store.Valid() && isMounted
      ensures unsubscribe.Some? && unsubscribe.value.token !in old(store.listeners)
      ensures store.listeners == old(store.listeners) + {unsubscribe.value.token}
      ensures old(previousState) == store.state ==> log == [] && previousState == old(previousState)
      ensures old(previousState) != store.state ==>
        previousState == store.state && log == Broadcast(subscriptions, store.state)
    {
      isMounted := true;
      log := Subscribe();
    }

    /** `componentWillUnmount`: unsubscribes from the store if subscribed,
        empties the callback set and clears the mounted flag. */
    method ComponentWillUnmount()
      requires Valid()
      requires forall s :: s in SubscribedStores() ==> s.Valid()
      modifies this`subscriptions, this`isMounted, SubscribedStores()
      ensures Valid() && !isMounted && subscriptions == []
      ensures unsubscribe == old(unsubscribe) && previousState == old(previousState)
      ensures unsubscribe.Some? ==>
        unsubscribe.value.store.listeners == old(unsubscribe.value.store.listeners) - {unsubscribe.value.token}
      ensures unsubscribe.Some? ==> unsubscribe.value.store.Valid()
      ensures unsubscribe.Some? ==> unsubscribe.value.store.state == old(unsubscribe.value.store.state)
    {
      if unsubscribe.Some? {
        unsubscribe.value.store.Unsubscribe(unsubscribe.value.token);
      }
      subscriptions := [];
      isMounted := false;
    }

    /** `componentDidUpdate` after React replaced `props.store` by `nextStore`.
        A different store is unsubscribed from and the new one subscribed to;
        the callback set is kept. The context value is not touched. */
    method ComponentDidUpdate(nextStore: Store) returns (log: seq<Delivery>)
      requires Valid() && isMounted && store.Valid() && nextStore.Valid()
      modifies this`store, this`unsubscribe, this`previousState
      modifies store`listeners, store`nextToken, nextStore`listeners, nextStore`nextToken
      ensures Valid() && isMounted && store == nextStore && nextStore.Valid()
      ensures subscriptions == old(subscriptions)
      ensures nextStore == old(store) ==>
        log == [] && unsubscribe == old(unsubscribe) && previousState == old(previousState) &&
        nextStore.listeners == old(nextStore.listeners)
      ensures nextStore != old(store) ==>
        old(store).Valid() &&
        old(store).listeners == old(store.listeners) - {old(unsubscribe).value.token} &&
        unsubscribe.Some? && unsubscribe.value.token !in old(nextStore.listeners) &&
        nextStore.listeners == old(nextStore.listeners) + {unsubscribe.value.token}
      ensures nextStore != old(store) && old(previousState) == nextStore.state ==>
        log == [] && previousState == old(previousState)
      ensures nextStore != old(store) && old(previousState) != nextStore.state ==>
        previousState == nextStore.state && log == Broadcast(subscriptions, nextStore.state)
    {
      var prevStore := store;
      store := nextStore;
      if nextStore != prevStore {
        if unsubscribe.Some? {
          unsubscribe.value.store.Unsubscribe(unsubscribe.value.token);
        }
        log := Subscribe();
      } else {
        log := [];
      }
    }

    /** `childSubscribe(cb)`: adds the callback and returns its remover. */
    method ChildSubscribe(cb: CallbackId) returns (sub: ChildSubscription)
      modifies this`subscriptions
      ensures subscriptions == Added(old(subscriptions), cb)
      ensures sub == ChildSubscription(this, cb)
      ensures old(Valid()) ==> Valid()
    {
      subscriptions := Added(subscriptions, cb);
      sub := ChildSubscription(this, cb);
    }

    /** Calling the function `childSubscribe(cb)` returned:
        `subscriptions.delete(cb)`, which reports whether `cb` was present. */
    method RemoveChild(cb: CallbackId) returns (removed: bool)
      modifies this`subscriptions
      ensures removed == (cb in old(subscriptions))
      ensures subscriptions == Without(old(subscriptions), cb)
      ensures old(Valid()) ==> Valid()
    {
      if NoDup(subscriptions) {
        WithoutKeepsNoDup(subscriptions, cb);
      }
      removed := cb in subscriptions;
      subscriptions := Without(subscriptions, cb);
    }
  }
}
