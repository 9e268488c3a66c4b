/** `makeDerivedPropsSelector`: the per-instance cache in front of the user's
    `selectorFactory` and the `sourceSelector` it returns.

    Both user functions are uninterpreted: `Factory` maps a dispatch and an
    options object to a selector, `SourceSelector` maps a selector and its two
    arguments to the props object it returns. Two counters record how often
    each was called. `Step` is the effect of one call of `selectDerivedProps`
    on the cache; `DerivedPropsSelector` is the closure, with its `let`
    variables as fields, and is proved to perform `Step`. */
module DerivedProps {
  import opened Values
  import opened ReduxStore

  type Factory = (DispatchId, OptionsId) -> SelectorId
  type SourceSelector = (SelectorId, Snapshot, Props) -> DerivedId

  /** The closure's variables (`None` is `undefined`) and the two call counters. */
  datatype Cache = Cache(
    lastProps: Option<Props>,
    lastState: Option<Snapshot>,
    lastDerived: Option<DerivedId>,
    lastStore: Option<Store>,
    lastOptions: Option<OptionsId>,
    sourceSelector: Option<SelectorId>,
    factoryCalls: nat,
    selectorCalls: nat)

  const EmptyCache := Cache(None, None, None, None, None, None, 0, 0)

  /** The arguments of one `selectDerivedProps(state, props, store, selectorFactoryOptions)`. */
  datatype Call = Call(state: Snapshot, props: Props, store: Store, options: OptionsId)

  /** Either nothing was computed yet or every variable holds a value. */
  predicate Consistent(c: Cache)
  {
    var started := c.lastProps.Some? || c.lastState.Some? || c.lastDerived.Some? ||
                   c.lastStore.Some? || c.lastOptions.Some? || c.sourceSelector.Some?;
    started ==>
      c.lastProps.Some? && c.lastState.Some? && c.lastDerived.Some? &&
      c.lastStore.Some? && c.lastOptions.Some? && c.sourceSelector.Some?
  }

  /** The short-circuit: a pure component called again with the very same
      props and state objects. */
  predicate Hit(c: Cache, pure: bool, call: Call)
  {
    pure && c.lastProps == Some(call.props) && c.lastState == Some(call.state)
  }

  /** The store or the options object differs from the one the cached
      selector was built for. */
  predicate Rebuilds(c: Cache, call: Call)
  {
    c.lastStore != Some(call.store) || c.lastOptions != Some(call.options)
  }

  /** One call of `selectDerivedProps`: the new cache and the result. */
  function Step(c: Cache, pure: bool, call: Call, factory: Factory, select: SourceSelector): (r: (Cache, DerivedId))
    requires Consistent(c)
    ensures Consistent(r.0)
    // the short-circuit calls no user code and changes nothing
    ensures Hit(c, pure, call) ==> r.0 == c && c.lastDerived == Some(r.1)
    // otherwise the cached selector computes the result, once, and the cache records this call
    ensures !Hit(c, pure, call) ==>
      r.0.lastProps == Some(call.props) && r.0.lastState == Some(call.state) &&
      r.0.lastStore == Some(call.store) && r.0.lastOptions == Some(call.options) &&
      r.0.lastDerived == Some(r.1) && r.1 == select(r.0.sourceSelector.value, call.state, call.props) &&
      r.0.selectorCalls == c.selectorCalls + 1
    // the factory runs exactly when the store or the options changed
    ensures !Hit(c, pure, call) && Rebuilds(c, call) ==>
      r.0.sourceSelector == Some(factory(call.store.dispatch, call.options)) &&
      r.0.factoryCalls == c.factoryCalls + 1
    ensures !(!Hit(c, pure, call) && Rebuilds(c, call)) ==>
      r.0.sourceSelector == c.sourceSelector && r.0.factoryCalls == c.factoryCalls
  {
    if Hit(c, pure, call) then (c, c.lastDerived.value)
    else
      var c1 := if Rebuilds(c, call)
        then c.(lastStore := Some(call.store), lastOptions := Some(call.options),
                sourceSelector := Some(factory(call.store.dispatch, call.options)),
                factoryCalls := c.factoryCalls + 1)
        else c;
      var next := select(c1.sourceSelector.value, call.state, call.props);
      (c1.(lastProps := Some(call.props), lastState := Some(call.state), lastDerived := Some(next),
           selectorCalls := c1.selectorCalls + 1), next)
  }

  /** A sequence of calls, with the result of each. */
  function Run(c: Cache, pure: bool, calls: seq<Call>, factory: Factory, select: SourceSelector)
    : (r: (Cache, seq<DerivedId>))
    requires Consistent(c)
    ensures Consistent(r.0) && |r.1| == |calls|
    decreases |calls|
  {
    if calls == [] then (c, [])
    else
      var s := Step(c, pure, calls[0], factory, select);
      var rest := Run(s.0, pure, calls[1..], factory, select);
      (rest.0, [s.1] + rest.1)
  }

  /** The cached result is what the cached selector gives for the cached arguments. */
  ghost predicate Coherent(c: Cache, select: SourceSelector)
  {
    Consistent(c) &&
    (c.lastProps.Some? ==>
      c.lastDerived == Some(select(c.sourceSelector.value, c.lastState.value, c.lastProps.value)))
  }

  /** Memoisation never changes a result: whether or not the short-circuit is
      taken, the result is what the current selector computes from this call's
      state and props, and the cache stays coherent. */
  lemma MemoIsSound(c: Cache, pure: bool, call: Call, factory: Factory, select: SourceSelector)
    requires Coherent(c, select)
    ensures Coherent(Step(c, pure, call, factory, select).0, select)
    ensures var r := Step(c, pure, call, factory, select);
      r.1 == select(r.0.sourceSelector.value, call.state, call.props)
  {
  }

  /** Once a pure cache has recorded a call, repeating it changes nothing. */
  lemma {:induction false} HitIsStable(c: Cache, call: Call, calls: seq<Call>, factory: Factory, select: SourceSelector)
    requires Consistent(c) && Hit(c, true, call)
    requires forall i :: 0 <= i < |calls| ==> calls[i] == call
    ensures Run(c, true, calls, factory, select).0 == c
    ensures forall i :: 0 <= i < |calls| ==> Some(Run(c, true, calls, factory, select).1[i]) == c.lastDerived
    decreases |calls|
  {
    if calls != [] {
      HitIsStable(c, call, calls[1..], factory, select);
    }
  }

  /** A pure component rendered again and again with the same state and props
      calls `sourceSelector` and `selectorFactory` at most once and returns the
      same props object every time. */
  lemma PureRepeatIsMemoised(c: Cache, call: Call, calls: seq<Call>, factory: Factory, select: SourceSelector)
    requires Consistent(c) && |calls| > 0
    requires forall i :: 0 <= i < |calls| ==> calls[i] == call
    ensures var r := Run(c, true, calls, factory, select);
      r.0.selectorCalls <= c.selectorCalls + 1 && r.0.factoryCalls <= c.factoryCalls + 1 &&
      forall i :: 0 <= i < |calls| ==> r.1[i] == Step(c, true, call, factory, select).1
  {
    var s := Step(c, true, call, factory, select);
    HitIsStable(s.0, call, calls[1..], factory, select);
  }

  /** Without `pure`, every call runs the source selector. */
  lemma {:induction false} ImpureComputesEveryCall(c: Cache, calls: seq<Call>, factory: Factory, select: SourceSelector)
    requires Consistent(c)
    ensures Run(c, false, calls, factory, select).0.selectorCalls == c.selectorCalls + |calls|
    decreases |calls|
  {
    if calls != [] {
      var s := Step(c, false, calls[0], factory, select);
      ImpureComputesEveryCall(s.0, calls[1..], factory, select);
    }
  }

  /** While the store and the options object stay the same, `selectorFactory`
      runs at most once, and not at all if the cache was built for them. */
  lemma {:induction false} FactoryOncePerStore(c: Cache, pure: bool, calls: seq<Call>, store: Store, options: OptionsId,
                                                factory: Factory, select: SourceSelector)
    requires Consistent(c)
    requires forall i :: 0 <= i < |calls| ==> calls[i].store == store && calls[i].options == options
    ensures var r := Run(c, pure, calls, factory, select);
      r.0.factoryCalls <= c.factoryCalls + 1 &&
      (c.lastStore == Some(store) && c.lastOptions == Some(options) ==> r.0.factoryCalls == c.factoryCalls)
    decreases |calls|
  {
    if calls != [] {
      var s := Step(c, pure, calls[0], factory, select);
      FactoryOncePerStore(s.0, pure, calls[1..], store, options, factory, select);
      assert s.0.factoryCalls > c.factoryCalls ==> s.0.lastStore == Some(store) && s.0.lastOptions == Some(options);
    }
  }

  /** The short-circuit is checked before the store: a pure component called
      with the same props and state but another store gets the cached result,
      and `selectorFactory` is not called for the new store. */
  lemma StoreChangeBehindShortCircuit(c: Cache, call: Call, factory: Factory, select: SourceSelector)
    requires Consistent(c) && Hit(c, true, call) && c.lastStore != Some(call.store)
    ensures Step(c, true, call, factory, select).0.factoryCalls == c.factoryCalls
    ensures Step(c, true, call, factory, select).0.lastStore != Some(call.store)
  {
  }

  class DerivedPropsSelector {
    const pure: bool
    const selectorFactory: Factory
    const select: SourceSelector
    var lastProps: Option<Props>
    var lastState: Option<Snapshot>
    var lastDerivedProps: Option<DerivedId>
    var lastStore: Option<Store>
    var lastSelectorFactoryOptions: Option<OptionsId>
    var sourceSelector: Option<SelectorId>
    ghost var factoryCalls: nat
    ghost var selectorCalls: nat

    ghost function CacheOf(): Cache
      reads this
    {
      Cache(lastProps, lastState, lastDerivedProps, lastStore, lastSelectorFactoryOptions,
            sourceSelector, factoryCalls, selectorCalls)
    }

    ghost predicate Valid()
      reads this
    {
      Coherent(CacheOf(), select)
    }

    constructor (pure: bool, selectorFactory: Factory, select: SourceSelector)
      ensures Valid() && CacheOf() == EmptyCache
      ensures this.pure == pure && this.selectorFactory == selectorFactory && this.select == select
    {
      this.pure := pure;
      this.selectorFactory := selectorFactory;
      this.select := select;
      lastProps, lastState, lastDerivedProps := None, None, None;
      lastStore, lastSelectorFactoryOptions, sourceSelector := None, None, None;
      factoryCalls, selectorCalls := 0, 0;
    }

    /** `selectDerivedProps(state, props, store, selectorFactoryOptions)`. */
    method SelectDerivedProps(state: Snapshot, props: Props, store: Store, options: OptionsId)
      returns (derived: DerivedId)
      requires Valid()
      modifies this
      ensures Valid()
      ensures (CacheOf(), derived) == Step(old(CacheOf()), pure, Call(state, props, store, options), selectorFactory, select)
    {
      MemoIsSound(CacheOf(), pure, Call(state, props, store, options), selectorFactory, select);
      if pure && lastProps == Some(props) && lastState == Some(state) {
        return lastDerivedProps.value;
      }
      if lastStore != Some(store) || lastSelectorFactoryOptions != Some(options) {
        lastStore := Some(store);
        lastSelectorFactoryOptions := Some(options);
        sourceSelector := Some(selectorFactory(store.dispatch, options));
        factoryCalls := factoryCalls + 1;
      }
      lastProps := Some(props);
      lastState := Some(state);
      var nextProps := select(sourceSelector.value, state, props);
      selectorCalls := selectorCalls + 1;
      lastDerivedProps := Some(nextProps);
      derived := nextProps;
    }
  }
}
