/** Identities and JavaScript values shared by the Provider and connectAdvanced models.
    The binding layer only ever compares these values with `===`, so each kind of
    reference is an opaque identity: two values are the same object exactly when
    their identities are equal. */
module Values {

  /** A state object returned by the store's `getState()`. */
  type Snapshot = nat
  /** A child callback registered with a Provider (a bound method of a Connect). */
  type CallbackId = nat
  /** The store's `dispatch` function. */
  type DispatchId = nat
  /** The `selectorFactoryOptions` object built once by `wrapWithConnect`. */
  type OptionsId = nat
  /** A `sourceSelector` returned by a call of `selectorFactory`. */
  type SelectorId = nat
  /** A props object returned by a `sourceSelector`. */
  type DerivedId = nat
  /** The wrapped component (`WrappedComponent`). */
  type ComponentId = nat
  /** A forwarded React ref. */
  type RefId = nat

  datatype Option<T> = None | Some(value: T)

  datatype Result<T, E> = Ok(value: T) | Err(error: E)

  /** The JavaScript values that option and prop checks look at. */
  datatype JsValue = Undefined | Null | Bool(b: bool) | Num(n: int) | Str(s: string) | Obj(id: nat)

  /** JavaScript truthiness (NaN is not modelled). */
  predicate Truthy(v: JsValue)
  {
    match v
    case Undefined => false
    case Null => false
    case Bool(b) => b
    case Num(n) => n != 0
    case Str(s) => s != ""
    case Obj(_) => true
  }

  /** A React context object: its identity, whether it has a `Consumer` property,
      and whether react-is recognises an element of that `Consumer` as a context consumer. */
  datatype ContextObj = ContextObj(id: nat, hasConsumer: bool, consumerRecognised: bool)

  /** `ReactReduxContext`, the default context shared by Provider and connect. */
  const ReactReduxContext := ContextObj(0, true, true)

  /** A props object. Only its identity and its own fields matter to the core. */
  class Props {
    const fields: map<string, JsValue>

    constructor (fields: map<string, JsValue>)
      ensures this.fields == fields
    {
      this.fields := fields;
    }
  }
}
