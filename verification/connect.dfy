/** The `Connect` component created by `wrapWithConnect`: it reads the store's
    state once when constructed, registers one callback with the Provider of
    its context value on mount, moves that registration when the context value
    changes, removes it on unmount, and records every state it is sent.
    `render` runs the two caches of the instance. */
module ConnectComponent {
  import opened Values
  import opened ReduxStore
  import opened Listeners
  import opened ProviderComponent
  import opened ConnectSetup
  import opened DerivedProps
  import opened ChildElement

  class Connect {
    /** The validated options of `connectAdvanced`. */
    const config: Config
    const wrappedComponent: ComponentId
    const selectorFactoryOptions: OptionsId
    /** `this.indirectHandleSubscription`, bound once per instance. */
    const callback: CallbackId
    const selectDerivedProps: DerivedPropsSelector
    const selectChildElement: ChildElementSelector
    /** `this.props.contextValue`: the Provider whose context value was read. */
    var contextValue: Provider
    /** The props the parent gave (`this.props.wrapperProps` with `forwardRef`). */
    var parentProps: Props
    /** `this.props.forwardedRef`. */
    var forwardedRef: Option<RefId>
    /** `this.state.storeState`. */
    var storeState: Snapshot
    /** `this.subscription`: the function `childSubscribe` returned. */
    var subscription: Option<ChildSubscription>

    ghost predicate Valid()
      reads this, selectDerivedProps, selectChildElement
    {
      selectDerivedProps.Valid() && selectChildElement.Valid() &&
      selectDerivedProps.pure == config.pure &&
      (subscription.Some? ==> subscription.value == ChildSubscription(contextValue, callback)) &&
      // the element cache was last fed by the props cache, for this component
      selectChildElement.lastChildProps == selectDerivedProps.lastDerivedProps &&
      (selectChildElement.lastComponent.Some? ==> selectChildElement.lastComponent == Some(wrappedComponent))
    }

    constructor (config: Config, wrappedComponent: ComponentId, selectorFactoryOptions: OptionsId,
                 callback: CallbackId, selectorFactory: Factory, select: SourceSelector,
                 contextValue: Provider, parentProps: Props, forwardedRef: Option<RefId>)
      ensures Valid() && fresh(selectDerivedProps) && fresh(selectChildElement)
      ensures this.config == config && this.wrappedComponent == wrappedComponent
      ensures this.selectorFactoryOptions == selectorFactoryOptions && this.callback == callback
      ensures this.contextValue == contextValue && this.parentProps == parentProps && this.forwardedRef == forwardedRef
      ensures selectDerivedProps.CacheOf() == EmptyCache
      ensures selectDerivedProps.selectorFactory == selectorFactory && selectDerivedProps.select == select
      ensures storeState == contextValue.contextStore.state
      ensures subscription == None
    {
      this.config := config;
      this.wrappedComponent := wrappedComponent;
      this.selectorFactoryOptions := selectorFactoryOptions;
      this.callback := callback;
      selectDerivedProps := new DerivedPropsSelector(config.pure, selectorFactory, select);
      selectChildElement := new ChildElementSelector();
      this.contextValue := contextValue;
      this.parentProps := parentProps;
      this.forwardedRef := forwardedRef;
      storeState := contextValue.contextStore.state;
      subscription := None;
    }

    /** `componentDidMount`: exactly one registration, with this instance's callback. */
    method ComponentDidMount()
      requires Valid() && subscription == None
      modifies this`subscription, contextValue`subscriptions
      ensures Valid()
      ensures subscription == Some(ChildSubscription(contextValue, callback))
      ensures contextValue.subscriptions == Added(old(contextValue.subscriptions), callback)
      ensures old(contextValue.Valid()) ==> contextValue.Valid()
    {
      var sub := contextValue.ChildSubscribe(callback);
      subscription := Some(sub);
    }

    /** `componentDidUpdate` after React gave the new props. Only a change of
        context value matters: the old registration is removed first, then
        the callback is registered with the new Provider. */
    method ComponentDidUpdate(nextContext: Provider, nextProps: Props, nextRef: Option<RefId>)
      requires Valid() && subscription.Some?
      modifies this`contextValue, this`parentProps, this`forwardedRef, this`subscription
      modifies contextValue`subscriptions, nextContext`subscriptions
      ensures Valid()
      ensures contextValue == nextContext && parentProps == nextProps && forwardedRef == nextRef
      ensures storeState == old(storeState)
      ensures nextContext == old(contextValue) ==>
        subscription == old(subscription) && nextContext.subscriptions == old(nextContext.subscriptions)
      ensures nextContext != old(contextValue) ==>
        old(contextValue).subscriptions == Without(old(contextValue.subscriptions), callback) &&
        nextContext.subscriptions == Added(old(nextContext.subscriptions), callback) &&
        subscription == Some(ChildSubscription(nextContext, callback))
      ensures old(contextValue.Valid()) ==> old(contextValue).Valid()
      ensures old(nextContext.Valid()) ==> nextContext.Valid()
    {
      var prevContext := contextValue;
      contextValue, parentProps, forwardedRef := nextContext, nextProps, nextRef;
      if nextContext != prevContext {
        var _ := subscription.value.provider.RemoveChild(subscription.value.callback);
        var sub := nextContext.ChildSubscribe(callback);
        subscription := Some(sub);
      }
    }

    /** `componentWillUnmount`: calls the current remover. */
    method ComponentWillUnmount()
      requires Valid() && subscription.Some?
      modifies contextValue`subscriptions
      ensures contextValue.subscriptions == Without(old(contextValue.subscriptions), callback)
      ensures callback !in contextValue.subscriptions
      ensures old(contextValue.Valid()) ==> contextValue.Valid()
    {
      var _ := subscription.value.provider.RemoveChild(subscription.value.callback);
    }

    /** `handleSubscription(storeState)`: records the state it was sent. */
    method HandleSubscription(storeState: Snapshot)
      modifies this`storeState
      ensures this.storeState == storeState
    {
      this.storeState := storeState;
    }

    /** `render`: derives props from the recorded state and the parent's props
        through the first cache, with the store of the context value and the
        options object, then gets the element from the second cache. Without
        `forwardRef` the rest-destructuring builds a new props object `wp` on
        every render, so the pure short-circuit is never taken there. */
    method Render() returns (e: Element, ghost wp: Props)
      requires Valid()
      modifies selectDerivedProps, selectChildElement
      ensures Valid()
      ensures config.forwardRef ==> wp == parentProps
      ensures !config.forwardRef ==> fresh(wp) && wp.fields == parentProps.fields
      // the first cache performs one step on these arguments
      ensures (selectDerivedProps.CacheOf(), e.props) ==
        Step(old(selectDerivedProps.CacheOf()), config.pure,
             Call(storeState, wp, contextValue.contextStore, selectorFactoryOptions),
             selectDerivedProps.selectorFactory, selectDerivedProps.select)
      // the rendered props are those the current selector gives for the current state
      ensures e.props == selectDerivedProps.select(selectDerivedProps.sourceSelector.value, storeState, wp)
      ensures e.component == wrappedComponent
      ensures e.ref == if config.forwardRef then forwardedRef else None
      // the second cache hands back its element unless a key changed
      ensures var p, ref := e.props, (if config.forwardRef then forwardedRef else None);
        old(selectChildElement.Unchanged(wrappedComponent, p, ref)) ==> old(selectChildElement.lastChildElement) == Some(e)
      ensures var p, ref := e.props, (if config.forwardRef then forwardedRef else None);
        !old(selectChildElement.Unchanged(wrappedComponent, p, ref)) ==> fresh(e)
      // either way the element cache now holds the element returned, under this call's keys
      ensures selectChildElement.lastChildElement == Some(e)
      ensures selectChildElement.Unchanged(wrappedComponent, e.props, e.ref)
      // a pure render with `forwardRef` and the same props, state and ref runs
      // no user function and returns the very element of the last render
      ensures config.pure && config.forwardRef && old(selectDerivedProps.lastProps) == Some(parentProps) &&
              old(selectDerivedProps.lastState) == Some(storeState) && old(selectChildElement.lastForwardRef) == forwardedRef ==>
        selectDerivedProps.CacheOf() == old(selectDerivedProps.CacheOf()) &&
        old(selectChildElement.lastChildElement) == Some(e)
    {
      var ref: Option<RefId> := None;
      var wrapperProps: Props;
      if config.forwardRef {
        ref := forwardedRef;
        wrapperProps := parentProps;
      } else {
        wrapperProps := new Props(parentProps.fields);
      }
      wp := wrapperProps;
      var derived := selectDerivedProps.SelectDerivedProps(storeState, wrapperProps, contextValue.contextStore,
                                                           selectorFactoryOptions);
      e := selectChildElement.SelectChildElement(wrappedComponent, derived, ref);
    }
  }
}
