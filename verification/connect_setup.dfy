/** The checks `connectAdvanced` and `ConnectConsumer` make before anything is
    subscribed: removed options, a store passed as a prop, a missing context
    value, and the choice of context object to read. Each `invariant(...)` call
    of the source is an error result here. */
module ConnectSetup {
  import opened Values
  import opened ProviderComponent

  datatype ConfigError =
    | RenderCountPropRemoved   // `renderCountProp` was given
    | WithRefRemoved           // `withRef` was truthy
    | StoreKeyRemoved          // `storeKey` was something other than 'store'
    | StorePropRemoved         // a truthy `store` prop reached the connected component
    | MissingContext           // no context value above the connected component

  /** The options object given to `connectAdvanced`; `Undefined` is an absent
      property, so the destructuring defaults apply to it. */
  datatype Options = Options(
    renderCountProp: JsValue,
    withRef: JsValue,
    storeKey: JsValue,
    forwardRef: JsValue,
    pure: JsValue,
    context: Option<ContextObj>)

  /** What the rest of the code reads from a valid options object. */
  datatype Config = Config(pure: bool, forwardRef: bool, context: ContextObj)

  /** A destructuring default: applies exactly when the property is undefined. */
  function WithDefault(v: JsValue, default: JsValue): JsValue
  {
    if v == Undefined then default else v
  }

  /** The three `invariant` checks of `connectAdvanced`, in their order, and
      the values the wrapper reads from the options afterwards. */
  function ValidateOptions(o: Options): (r: Result<Config, ConfigError>)
    ensures r.Ok? <==>
      o.renderCountProp == Undefined && !Truthy(o.withRef) && o.storeKey in {Undefined, Str("store")}
    ensures o.renderCountProp != Undefined ==> r == Err(RenderCountPropRemoved)
    ensures o.renderCountProp == Undefined && Truthy(o.withRef) ==> r == Err(WithRefRemoved)
    ensures o.renderCountProp == Undefined && !Truthy(o.withRef) && o.storeKey !in {Undefined, Str("store")} ==>
      r == Err(StoreKeyRemoved)
    ensures r.Ok? ==> r.value.pure == Truthy(o.pure) && r.value.forwardRef == Truthy(o.forwardRef)
    ensures r.Ok? && o.context.None? ==> r.value.context == ReactReduxContext
    ensures r.Ok? && o.context.Some? ==> r.value.context == o.context.value
  {
    if WithDefault(o.renderCountProp, Undefined) != Undefined then Err(RenderCountPropRemoved)
    else if Truthy(WithDefault(o.withRef, Bool(false))) then Err(WithRefRemoved)
    else if WithDefault(o.storeKey, Str("store")) != Str("store") then Err(StoreKeyRemoved)
    else
      Ok(Config(Truthy(o.pure), Truthy(WithDefault(o.forwardRef, Bool(false))), ProviderContext(o.context)))
  }

  /** The `ConnectConsumer` constructor check. With `forwardRef` it reads
      `props.wrapperProps.store`, otherwise `props.store`; both are the props
      the parent gave, which is `parentProps` here (`storeKey` is 'store' once
      the options are valid). */
  function CheckStoreProp(parentProps: map<string, JsValue>): (r: Result<(), ConfigError>)
    ensures r.Err? <==> "store" in parentProps && Truthy(parentProps["store"])
    ensures r.Err? ==> r.error == StorePropRemoved
  {
    if "store" in parentProps && Truthy(parentProps["store"]) then Err(StorePropRemoved) else Ok(())
  }

  /** `ContextToUse` in `ConnectConsumer.render`: the `context` prop when it
      has a `Consumer` that react-is recognises, the configured context otherwise. */
  function ContextToUse(propContext: Option<ContextObj>, configured: ContextObj): (c: ContextObj)
    ensures c == configured || (propContext.Some? && c == propContext.value)
    ensures c != configured ==> c.hasConsumer && c.consumerRecognised
    ensures propContext.Some? && propContext.value.hasConsumer && propContext.value.consumerRecognised ==>
      c == propContext.value
  {
    if propContext.Some? && propContext.value.hasConsumer && propContext.value.consumerRecognised
    then propContext.value
    else configured
  }

  /** `renderWrappedComponent(value)`: the context value read by the consumer
      must be present. */
  function RenderWrappedComponent(value: Option<Provider>): (r: Result<Provider, ConfigError>)
    ensures value.None? <==> r == Err(MissingContext)
    ensures value.Some? ==> r == Ok(value.value)
  {
    match value
    case None => Err(MissingContext)
    case Some(p) => Ok(p)
  }

  /** The `context` prop `ConnectConsumer` sees. Without `forwardRef` its props
      are the parent's; with `forwardRef` they are only `wrapperProps` and
      `forwardedRef`, so it never has a `context` prop. */
  function ConsumerContextProp(config: Config, propContext: Option<ContextObj>): (c: Option<ContextObj>)
    ensures config.forwardRef ==> c == None
    ensures !config.forwardRef ==> c == propContext
  {
    if config.forwardRef then None else propContext
  }

  /** Everything a `ConnectConsumer` does before `Connect` is created: the
      store-prop check of its constructor, the choice of context in `render`,
      the context read (`scope` maps each context object above the component to
      the value of its nearest provider) and the missing-context check.
      `propContext` is the `context` prop the parent gave. */
  function ConsumerRender(config: Config, parentProps: map<string, JsValue>,
                          propContext: Option<ContextObj>, scope: map<ContextObj, Provider>)
    : (r: Result<Provider, ConfigError>)
    ensures "store" in parentProps && Truthy(parentProps["store"]) ==> r == Err(StorePropRemoved)
    ensures r.Ok? <==>
      !("store" in parentProps && Truthy(parentProps["store"])) &&
      ContextToUse(ConsumerContextProp(config, propContext), config.context) in scope
    ensures r.Ok? ==> ContextToUse(ConsumerContextProp(config, propContext), config.context) in scope &&
                      r.value == scope[ContextToUse(ConsumerContextProp(config, propContext), config.context)]
    ensures r == Err(MissingContext) <==>
      !("store" in parentProps && Truthy(parentProps["store"])) &&
      ContextToUse(ConsumerContextProp(config, propContext), config.context) !in scope
  {
    match CheckStoreProp(parentProps)
    case Err(e) => Err(e)
    case Ok(_) =>
      var ctx := ContextToUse(ConsumerContextProp(config, propContext), config.context);
      RenderWrappedComponent(if ctx in scope then Some(scope[ctx]) else None)
  }

  /** With `forwardRef`, a `context` prop given by the parent is ignored: the
      connected component reads the context configured by the options. */
  lemma ForwardRefIgnoresContextProp(config: Config, parentProps: map<string, JsValue>,
                                     propContext: Option<ContextObj>, scope: map<ContextObj, Provider>)
    requires config.forwardRef
    ensures ConsumerRender(config, parentProps, propContext, scope) == ConsumerRender(config, parentProps, None, scope)
    ensures !("store" in parentProps && Truthy(parentProps["store"])) ==>
      (ConsumerRender(config, parentProps, propContext, scope) == Err(MissingContext) <==> config.context !in scope)
  {
  }

  /** Without `forwardRef`, a Provider and a connected component that are
      given no context, or the same custom context with a recognised
      `Consumer` as a prop, read and write the same context object. */
  lemma SharedContext(o: Options, custom: Option<ContextObj>)
    requires ValidateOptions(o).Ok? && o.context.None? && !ValidateOptions(o).value.forwardRef
    requires custom.Some? ==> custom.value.hasConsumer && custom.value.consumerRecognised
    ensures ContextToUse(ConsumerContextProp(ValidateOptions(o).value, custom), ValidateOptions(o).value.context)
            == ProviderContext(custom)
  {
  }

  /** A connected component whose `context` option is a custom context shares
      it with a Provider given that context, when it gets no `context` prop or
      when `forwardRef` is set (which hides any such prop). */
  lemma SharedOptionContext(o: Options, propContext: Option<ContextObj>)
    requires ValidateOptions(o).Ok? && o.context.Some?
    requires ValidateOptions(o).value.forwardRef || propContext.None?
    ensures ContextToUse(ConsumerContextProp(ValidateOptions(o).value, propContext), ValidateOptions(o).value.context)
            == ProviderContext(o.context)
  {
  }
}
