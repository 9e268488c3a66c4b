# react-redux Provider and connectAdvanced, modelled in Dafny

This project models the part of react-redux that carries store updates from a
Redux store to connected React components:

- the `Provider` component, a subscription hub. It holds one subscription to
  the store, a set of child callbacks, the last state it broadcast and a
  mounted flag. On every store notification it broadcasts a changed state to
  all callbacks, and it re-subscribes when the store is swapped;
- the per-instance caches of `connectAdvanced`:
  - `makeDerivedPropsSelector`, which memoises the user's `selectorFactory`
    and `sourceSelector`;
  - `makeChildElementSelector`, a cache keyed by three identities;
- the `Connect` component's lifecycle: it subscribes on mount, moves its
  subscription when the context value changes, unsubscribes on unmount and
  records every state it is sent;
- the configuration checks, each of which fails with an error:
  - removed options;
  - a store passed as a prop;
  - a missing context value;
- the choice of context object.

React is treated as an abstract host. Its lifecycle methods are called by the
caller in React's order. `unstable_batchedUpdates(f)` is `f()`, and
`setState` is a direct write of the field. Everything the code only compares
with `===` is an opaque identity, a `nat`. This covers state objects,
callbacks, the `dispatch` function, the options object, selectors, derived
props and refs. The objects the code allocates, and whose identity therefore
matters, are Dafny objects:

- props objects: the rest-destructuring in `render` makes a new one;
- elements;
- stores;
- Providers;
- `Connect` instances.

The user's `selectorFactory` and `sourceSelector` are arbitrary total
functions. Ghost counters record how often each is called.

Modules:

- `Values`: identities, `Option`, `Result`, JavaScript values and truthiness,
  context objects, props objects.
- `ReduxStore`: the store as the binding sees it. It has a mutable state,
  `subscribe`/unsubscribe tokens and a `dispatch` identity.
- `Listeners`: the Provider's callback set, modelled as a sequence without
  duplicates in insertion order. It also holds the broadcast and its laws.
- `ProviderComponent`: the `Provider` class.
- `ConnectSetup`: the option invariants, the store-prop and missing-context
  checks, and the context choice.
- `DerivedProps`: the specification `Step` of one `selectDerivedProps` call,
  lemmas about sequences of calls, and the closure as a class proved to
  perform `Step`.
- `ChildElement`: the element cache.
- `ConnectComponent`: the `Connect` class.
- `Hub`: a Provider and its connected components together. A broadcast's
  delivery log is applied to the components, and a dispatch leaves every
  subscribed component holding the new state. The module also holds concrete
  runs with the string-appending store of the concurrent-mode test.

Points of the code's behaviour that the model keeps:

- The context value the Provider publishes is the `this.state` object built
  once in its constructor (src/components/Provider.js:15-18). It is never
  replaced, so after `componentDidUpdate` swaps the store, descendants still
  read the first store. The model keeps `Provider.contextStore` constant.
  `Connect` reads that store in its constructor and in `render`.
- `Connect` does not refresh `storeState` when its context value changes. It
  keeps the state last sent to it.
- Without `forwardRef`, the rest-destructuring in `Connect.render` builds a
  new props object on every render. So the pure short-circuit of
  `selectDerivedProps` can only be taken when `forwardRef` is set.
- With `forwardRef`, `ConnectConsumer` receives only `wrapperProps` and
  `forwardedRef`, so a `context` prop given by the parent is never read and
  the configured context is used (see `ForwardRefIgnoresContextProp`).
- The pure short-circuit is checked before the store. A pure component that
  sees the same props and state objects with another store returns the old
  result and does not call `selectorFactory` for the new store (see
  `StoreChangeBehindShortCircuit`).

## Model

| member | source | states |
|---|---|---|
| `ProviderComponent.ProviderContext` | src/components/Provider.js:77-78 | the context object provided is the `context` prop when one is given, `ReactReduxContext` otherwise |
| `ProviderComponent.Provider.constructor` | src/components/Provider.js:10-21 | the callback set starts empty; `previousState` is the store's current state; the context value holds the given store; not mounted, no store subscription |
| `ProviderComponent.Provider.FlushUpdates` | src/components/Provider.js:47-58 | on a state identical to `previousState` it calls no callback and keeps `previousState`; otherwise it records the new state and calls every callback registered now, once each, in order, with that one state |
| `ProviderComponent.Provider.OnStoreNotification` | src/components/Provider.js:60-64 | the listener given to the store delivers nothing and changes nothing unless the Provider is mounted; while mounted it is a flush |
| `ProviderComponent.Provider.Subscribe` | src/components/Provider.js:43-68 | registers one new listener with the current store, records its remover, then flushes once, so an update that arrived before the subscription is broadcast once, and only if the state changed |
| `ProviderComponent.Provider.ComponentDidMount` | src/components/Provider.js:23-26 | sets the mounted flag, then subscribes and flushes as above |
| `ProviderComponent.Provider.ComponentWillUnmount` | src/components/Provider.js:28-33 | removes the store listener if there is one, empties the callback set and clears the mounted flag; the store's state is untouched |
| `ProviderComponent.Provider.ComponentDidUpdate` | src/components/Provider.js:35-41 | the same store changes nothing; a different store loses the old listener, gains a new one, and is flushed once; the callback set is kept |
| `ProviderComponent.Provider.ChildSubscribe` | src/components/Provider.js:70-75 | adds the callback with set semantics and returns the remover for exactly this Provider and callback; the set stays free of duplicates |
| `ProviderComponent.Provider.RemoveChild` | src/components/Provider.js:74 | deletes exactly the callback, keeps the others in order, reports whether it was present, and keeps the set free of duplicates |
| `ReduxStore.Store.Subscribe` | src/components/Provider.js:60 | the listener registered is new and is the only one added |
| `ReduxStore.Store.Unsubscribe` | src/components/Provider.js:29 | removes exactly that listener; a second call is a no-op |
| `Listeners.Added` | src/components/Provider.js:72 | `Set.add`: the members are the old ones plus the callback; the old order is a prefix; it grows only when the callback was absent; no duplicates arise |
| `Listeners.Without` | src/components/Provider.js:74 | `Set.delete`: the members are exactly the old ones other than the callback |
| `Listeners.WithoutAt` | src/components/Provider.js:74 | in a set without duplicates, deleting a registered callback removes its one position and keeps the others in their order |
| `Listeners.Broadcast` | src/components/Provider.js:53-57 | one delivery per registered callback, in order, each with the same state |
| `Listeners.WithoutKeepsNoDup` | src/components/Provider.js:74 | deleting keeps the set free of duplicates |
| `Listeners.WithoutAbsent` | src/components/Provider.js:74 | deleting an absent callback changes nothing |
| `Listeners.WithoutAppended` | src/components/Provider.js:72-74 | deleting a callback just added equals deleting it before the add |
| `Listeners.AddThenRemove` | src/components/Provider.js:70-75 | subscribing a new callback and calling the returned remover restores the set exactly |
| `Listeners.BroadcastSameSnapshot` | src/components/Provider.js:52-56 | every call of one broadcast carries the one state, and only registered callbacks are called |
| `Listeners.BroadcastExactlyOnce` | src/components/Provider.js:54-56 | each registered callback is called exactly once, any other callback never |
| `Listeners.BroadcastSettles` | src/components/Provider.js:52-56 | after a broadcast every registered callback last received the broadcast state, and every other callback keeps what it had |
| `ConnectSetup.ValidateOptions` | src/components/connectAdvanced.js:36-88 | succeeds exactly when `renderCountProp` is undefined, `withRef` is falsy and `storeKey` is absent or `'store'`; the three failures come in the source's order; a success carries the truthiness of `pure` and `forwardRef` and the given or default context |
| `ConnectSetup.CheckStoreProp` | src/components/connectAdvanced.js:282-286 | fails exactly when the parent's props have a truthy `store` |
| `ConnectSetup.ContextToUse` | src/components/connectAdvanced.js:310-315 | the `context` prop is used exactly when it has a recognised `Consumer`, the configured context otherwise |
| `ConnectSetup.RenderWrappedComponent` | src/components/connectAdvanced.js:297-304 | fails exactly when no context value is found, and passes the value on otherwise |
| `ConnectSetup.ConsumerContextProp` | src/components/connectAdvanced.js:328-334 | with `forwardRef` the consumer has no `context` prop; without it, the parent's `context` prop is the consumer's |
| `ConnectSetup.ConsumerRender` | src/components/connectAdvanced.js:280-319 | a store prop fails first; it succeeds exactly when there is no store prop and the context chosen from the consumer's own `context` prop is in scope, with that context's value; it fails with the missing-context error exactly when there is no store prop and that context is not in scope |
| `ConnectSetup.ForwardRefIgnoresContextProp` | src/components/connectAdvanced.js:310-333 | with `forwardRef` the outcome does not depend on the parent's `context` prop, and the missing-context error happens exactly when the configured context is not in scope |
| `ConnectSetup.SharedContext` | src/components/connectAdvanced.js:310-315 | without `forwardRef` and with no `context` option, a Provider and a connected component given no context, or the same recognised custom context as a prop, use the same context object |
| `ConnectSetup.SharedOptionContext` | src/components/connectAdvanced.js:62 | a component whose `context` option is a custom context shares it with a Provider given that context, when it gets no `context` prop or has `forwardRef` |
| `DerivedProps.Step` | src/components/connectAdvanced.js:138-167 | a pure call with the cached props and state changes nothing and returns the cached result; otherwise the result is the cached selector applied to this call's state and props, the selector runs once, and the cache records the call; the factory runs, on this store's `dispatch` and these options, exactly when the store or the options differ |
| `DerivedProps.Run` | src/components/connectAdvanced.js:138-167 | a sequence of calls keeps the cache consistent and gives one result per call |
| `DerivedProps.MemoIsSound` | src/components/connectAdvanced.js:144-166 | whether or not the short-circuit is taken, the result is what the current selector gives for this call's state and props, and the cache stays coherent |
| `DerivedProps.HitIsStable` | src/components/connectAdvanced.js:144-146 | once a pure cache holds a call, repeating it any number of times leaves the cache as it is and returns the cached result |
| `DerivedProps.PureRepeatIsMemoised` | src/components/connectAdvanced.js:144-146 | a pure component called repeatedly with the same arguments runs each user function at most once and returns the same result every time |
| `DerivedProps.ImpureComputesEveryCall` | src/components/connectAdvanced.js:160-166 | without `pure` the source selector runs on every call |
| `DerivedProps.FactoryOncePerStore` | src/components/connectAdvanced.js:148-158 | while store and options stay the same, `selectorFactory` runs at most once, and not at all if the cache was built for them |
| `DerivedProps.StoreChangeBehindShortCircuit` | src/components/connectAdvanced.js:144-158 | a pure repeat of props and state with another store does not call `selectorFactory` and does not record the new store |
| `DerivedProps.DerivedPropsSelector.constructor` | src/components/connectAdvanced.js:130-136 | all closure variables start undefined and no user function has run |
| `DerivedProps.DerivedPropsSelector.SelectDerivedProps` | src/components/connectAdvanced.js:138-167 | performs `Step` on the closure variables and returns its result, keeping the cache coherent |
| `ChildElement.Element.constructor` | src/components/connectAdvanced.js:186-188 | the element shows the wrapped component, the derived props and the ref |
| `ChildElement.ChildElementSelector.constructor` | src/components/connectAdvanced.js:171 | the three keys and the element start undefined |
| `ChildElement.ChildElementSelector.SelectChildElement` | src/components/connectAdvanced.js:173-192 | the element returned shows this call's keys; if no key changed identity it is the cached object and nothing changes, otherwise it is a new element and all three keys and the element are cached |
| `ConnectComponent.Connect.constructor` | src/components/connectAdvanced.js:209-220 | both caches are new and the derived-props cache is empty; `storeState` is the state of the context value's store; no subscription yet |
| `ConnectComponent.Connect.ComponentDidMount` | src/components/connectAdvanced.js:222-226 | registers this instance's callback once with the context value's Provider and keeps the remover; that Provider stays valid |
| `ConnectComponent.Connect.ComponentDidUpdate` | src/components/connectAdvanced.js:228-235 | the same context value changes no subscription; a new one removes the callback from the old Provider and registers it with the new one; `storeState` is kept; both Providers stay valid |
| `ConnectComponent.Connect.ComponentWillUnmount` | src/components/connectAdvanced.js:237-239 | calls the current remover: the callback is no longer registered, the other callbacks keep their order, and the Provider stays valid |
| `ConnectComponent.Connect.HandleSubscription` | src/components/connectAdvanced.js:245-249 | `storeState` becomes exactly the state passed |
| `ConnectComponent.Connect.Render` | src/components/connectAdvanced.js:251-273 | the props cache performs one `Step` on the recorded state, the props object (the parent's with `forwardRef`, a new copy without), the context value's first store and the options object; the element shows the wrapped component, those derived props and the forwarded ref only with `forwardRef`, and is the cached element when no key changed and a new one otherwise, and the element cache then holds it under this render's keys; a pure `forwardRef` render with the same props, state and ref runs no user function and returns the last element |
| `Hub.Invoke` | src/components/Provider.js:53-57 | after the deliveries of a log, each registered component holds the state last delivered to its callback |
| `Hub.NotifyStore` | src/components/Provider.js:60-64 | a notification of a mounted Provider with a changed state leaves every subscribed component holding that one state (no tearing); an unchanged state or an unmounted Provider delivers nothing; unsubscribed components are untouched |
| `Hub.Dispatch` | src/components/Provider.js:47-64 | a dispatch on a mounted Provider's store leaves the Provider holding the new state; when the state changed every subscribed component holds it too, and components already in step stay in step, so no update is lost; a dispatch that keeps the state object delivers nothing and changes no component; unsubscribed components keep their state |
| `Hub.RenderTwice` | src/components/connectAdvanced.js:178-191 | a pure `forwardRef` component rendered twice with nothing changed in between returns the identical element |
| `Hub.RenderAfterAppends` | test/components/connect.concurrent.spec.js:96-116 | appending "a", "b" and "c" makes the connected component record and render "abc" |
| `Hub.UpdateBeforeSubscription` | src/components/Provider.js:66-67 | a dispatch between construction and mount reaches the component once, through the flush after subscribing |
| `Hub.LateNotificationAfterUnmount` | src/components/Provider.js:28-33 | after the Provider unmounts, a late call of its listener delivers nothing |
| `Hub.SameStateDeliversNothing` | src/components/Provider.js:48-51 | a dispatch that keeps the same state object delivers nothing |
| `Hub.UnmountedChildIsSkipped` | src/components/connectAdvanced.js:237-239 | a component that has unmounted is not called by a later dispatch |

## Left out

- React itself is not modelled: rendering, reconciliation, `Context.Provider`/`Consumer`, `React.memo`, `compatMemo`, the shallow comparison of `PureComponent`, and `React.forwardRef`. A context lookup is an explicit map from context objects to Provider values (`ConsumerRender`), and elements are opaque objects.
- The timing of `setState` and `unstable_batchedUpdates` is not modelled. A batch is a direct sequential call, `setState` a direct field write, and a callback's effect is applied after the broadcast by `Hub.Invoke`. Concurrent-mode scheduling is outside the model.
- `isValidElementType`, `isContextConsumer`, `hoistStatics`, the display-name computation, `stringifyComponent` and PropTypes are outside the model. They are foreign library calls or glue. Whether react-is recognises a context's `Consumer` is a field of the context object.
- Reducers and actions are outside the model. A dispatch is represented by the state object it produces.
- `selectorFactory` and `sourceSelector` are pure functions of their arguments here. Any memoisation inside them, and any side effect, is outside the model. The `selectorFactoryOptions` object is an identity, not its contents.
- Callbacks that change the Provider's set while a broadcast is iterating it are not modelled. The only callback in the core records the state it is given.
- `ProviderComponent.Provider.OnStoreNotification` reads the Provider's current store. The source's listener reads the store it was registered with. The two differ only for a notification from an old store that arrives after a store swap has unsubscribed it. That stale delivery is not modelled.
- The `shouldHandleStateChanges`, `getDisplayName` and `methodName` options are outside the model. They are passed through to `selectorFactory` or used only in messages.
- The development-only check that the wrapped component is a valid element type is not modelled (see above).
- `DerivedProps.Step` assumes `selectorFactory` and `sourceSelector` return normally. The source writes `lastStore` and `lastSelectorFactoryOptions` before `selectorFactory` runs (src/components/connectAdvanced.js:152-157), and `lastProps` and `lastState` before `sourceSelector` runs (lines 160-163). So after a throw the cached keys no longer match `sourceSelector` or `lastDerivedProps`. A later pure call with those props and state then returns a result computed from other inputs, and later calls with that store reuse the old store's selector. The model does not capture this, and `MemoIsSound` does not hold for it.
- JavaScript `NaN`, which is falsy, is not a value of the model's `JsValue`.
