/** The Provider's set of child callbacks and the broadcast over it.

    A JavaScript `Set` iterates in insertion order and holds each callback once,
    so it is modelled as a sequence without duplicates. `add` appends an absent
    callback, `delete` removes exactly one callback and keeps the order of the
    others, and a broadcast calls every member once, in order, with the same
    state. A call `cb(state)` is recorded as a `Delivery`. */
module Listeners {
  import opened Values

  datatype Delivery = Delivery(callback: CallbackId, state: Snapshot)

  /** Every callback occurs at most once. */
  predicate NoDup(s: seq<CallbackId>)
  {
    forall i, j :: 0 <= i < j < |s| ==> s[i] != s[j]
  }

  /** `subscriptions.add(cb)`. */
  function Added(s: seq<CallbackId>, cb: CallbackId): (r: seq<CallbackId>)
    ensures forall x :: x in r <==> x in s || x == cb
    ensures |r| == if cb in s then |s| else |s| + 1
    ensures r[..|s|] == s
    ensures NoDup(s) ==> NoDup(r)
  {
    if cb in s then s else s + [cb]
  }

  /** `subscriptions.delete(cb)`. */
  function Without(s: seq<CallbackId>, cb: CallbackId): (r: seq<CallbackId>)
    ensures forall x :: x in r <==> x in s && x != cb
    ensures |r| <= |s|
  {
    if s == [] then []
    else if s[0] == cb then Without(s[1..], cb)
    else [s[0]] + Without(s[1..], cb)
  }

  /** `subscriptions.forEach(cb => cb(state))`: one delivery per member, in order. */
  function Broadcast(subs: seq<CallbackId>, state: Snapshot): (log: seq<Delivery>)
    ensures |log| == |subs|
    ensures forall i :: 0 <= i < |subs| ==> log[i] == Delivery(subs[i], state)
  {
    if subs == [] then [] else [Delivery(subs[0], state)] + Broadcast(subs[1..], state)
  }

  /** How many times `cb` is called in `log`. */
  function Deliveries(log: seq<Delivery>, cb: CallbackId): nat
  {
    if log == [] then 0
    else (if log[0].callback == cb then 1 else 0) + Deliveries(log[1..], cb)
  }

  /** The state a callback that records its argument holds after `log` has been
      delivered, starting from `init`. */
  function LastFor(log: seq<Delivery>, cb: CallbackId, init: Snapshot): Snapshot
  {
    if log == [] then init
    else LastFor(log[1..], cb, if log[0].callback == cb then log[0].state else init)
  }

  /** Removal keeps the remaining callbacks free of duplicates. */
  lemma {:induction false} WithoutKeepsNoDup(s: seq<CallbackId>, cb: CallbackId)
    requires NoDup(s)
    ensures NoDup(Without(s, cb))
  {
    if s != [] {
      WithoutKeepsNoDup(s[1..], cb);
      if s[0] != cb {
        var t := Without(s[1..], cb);
        assert s[0] !in t by {
          assert s[0] !in s[1..];
        }
        forall i, j | 0 <= i < j < |[s[0]] + t|
          ensures ([s[0]] + t)[i] != ([s[0]] + t)[j]
        {
          if i == 0 {
            assert ([s[0]] + t)[j] == t[j - 1];
          }
        }
      }
    }
  }

  /** Deleting a callback that is absent changes nothing. */
  lemma {:induction false} WithoutAbsent(s: seq<CallbackId>, cb: CallbackId)
    requires cb !in s
    ensures Without(s, cb) == s
  {
    if s != [] {
      WithoutAbsent(s[1..], cb);
      assert [s[0]] + s[1..] == s;
    }
  }

  /** Deleting a registered callback removes its one position and keeps the
      others in their order. */
  lemma {:induction false} WithoutAt(s: seq<CallbackId>, k: nat)
    requires NoDup(s) && k < |s|
    ensures Without(s, s[k]) == s[..k] + s[k + 1..]
  {
    assert s[0] !in s[1..];
    if k == 0 {
      WithoutAbsent(s[1..], s[0]);
    } else {
      var t := s[1..];
      assert NoDup(t);
      assert t[k - 1] == s[k];
      WithoutAt(t, k - 1);
      assert s[0] != s[k];
      assert s[..k] + s[k + 1..] == [s[0]] + (t[..k - 1] + t[k..]);
    }
  }

  /** Deleting `cb` after appending it is the same as deleting it before. */
  lemma {:induction false} WithoutAppended(s: seq<CallbackId>, cb: CallbackId)
    ensures Without(s + [cb], cb) == Without(s, cb)
  {
    if s == [] {
      assert [cb][1..] == [];
    } else {
      assert (s + [cb])[1..] == s[1..] + [cb];
      WithoutAppended(s[1..], cb);
    }
  }

  /** Registering a new callback and then calling the function `childSubscribe`
      returned restores the set exactly, order included. */
  lemma AddThenRemove(s: seq<CallbackId>, cb: CallbackId)
    requires cb !in s
    ensures Without(Added(s, cb), cb) == s
  {
    WithoutAppended(s, cb);
    WithoutAbsent(s, cb);
  }

  /** Every delivery of one broadcast carries the same state. */
  lemma BroadcastSameSnapshot(subs: seq<CallbackId>, state: Snapshot)
    ensures forall d :: d in Broadcast(subs, state) ==> d.state == state
    ensures forall d :: d in Broadcast(subs, state) ==> d.callback in subs
  {
    var log := Broadcast(subs, state);
    forall d | d in log
      ensures d.state == state && d.callback in subs
    {
      var i :| 0 <= i < |log| && log[i] == d;
    }
  }

  /** A broadcast calls every registered callback exactly once and nothing else. */
  lemma {:induction false} BroadcastExactlyOnce(subs: seq<CallbackId>, state: Snapshot, cb: CallbackId)
    requires NoDup(subs)
    ensures Deliveries(Broadcast(subs, state), cb) == if cb in subs then 1 else 0
  {
    if subs != [] {
      var log := Broadcast(subs, state);
      assert log[1..] == Broadcast(subs[1..], state);
      assert subs[0] !in subs[1..];
      BroadcastExactlyOnce(subs[1..], state, cb);
    }
  }

  /** After a broadcast has been recorded, every registered callback holds the
      broadcast state and every other one keeps what it had. */
  lemma {:induction false} BroadcastSettles(subs: seq<CallbackId>, state: Snapshot, cb: CallbackId, init: Snapshot)
    ensures LastFor(Broadcast(subs, state), cb, init) == if cb in subs then state else init
  {
    if subs != [] {
      var log := Broadcast(subs, state);
      assert log[1..] == Broadcast(subs[1..], state);
      BroadcastSettles(subs[1..], state, cb, if subs[0] == cb then state else init);
      assert cb in subs <==> cb == subs[0] || cb in subs[1..];
    }
  }
}
