/** The Redux store as the binding layer sees it: a mutable current state, a
    `dispatch` identity and a listener registry whose `subscribe` hands back a
    token that later unsubscribes. Reducers and actions are outside the model:
    a dispatch is represented by the state object it produces. */
module ReduxStore {
  import opened Values

  class Store {
    const dispatch: DispatchId
    var state: Snapshot
    var listeners: set<nat>
    var nextToken: nat

    ghost predicate Valid()
      reads this
    {
      forall t :: t in listeners ==> t < nextToken
    }

    constructor (dispatch: DispatchId, initial: Snapshot)
      ensures Valid()
      ensures this.dispatch == dispatch && state == initial && listeners == {}
    {
      this.dispatch := dispatch;
      state := initial;
      listeners := {};
      nextToken := 0;
    }

    /** `store.subscribe(listener)`: registers a new listener; the token stands
        for the returned unsubscribe function. */
    method Subscribe() returns (token: nat)
      requires Valid()
      modifies this`listeners, this`nextToken
      ensures Valid()
      ensures token !in old(listeners)
      ensures listeners == old(listeners) + {token}
    {
      token := nextToken;
      listeners := listeners + {token};
      nextToken := nextToken + 1;
    }

    /** Calling the unsubscribe function returned for `token` (a no-op the second time). */
    method Unsubscribe(token: nat)
      requires Valid()
      modifies this`listeners
      ensures Valid()
      ensures listeners == old(listeners) - {token}
    {
      listeners := listeners - {token};
    }

    /** A dispatch whose reducer produced the state object `next`. */
    method Dispatch(next: Snapshot)
      modifies this`state
      ensures state == next
    {
      state := next;
    }
  }
}
