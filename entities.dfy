/**
 * The channel entities behind the socket: the global channel and the
 * subscriptions held by the registry. Their classes are not part of the
 * files modelled here; what they do is taken from how the socket and the
 * tests use them: `subscribed` and `global` start false, `bind` appends a
 * callback under an event name, dispatch runs the callbacks bound to the
 * event in the order they were bound, `acknowledge_subscription` sets
 * `subscribed` and `disconnect` clears it.
 */
module Entities {

  /**
   * A callback bound to a channel. Application blocks are opaque and known
   * by an id; the three blocks the socket binds on its global channel when
   * it is built are named, because running them changes the socket.
   */
  datatype Callback = ConnectionEstablished | ConnectionDisconnected | ErrorLogger | User(id: nat)

  /** One run of an application callback with the event data it was given. */
  datatype Firing = Firing(callback: nat, data: string)

  /** The callbacks bound under `event`, oldest first. */
  function BoundTo<T>(callbacks: map<string, seq<T>>, event: string): seq<T>
  {
    if event in callbacks then callbacks[event] else []
  }

  /** What running the application callbacks `ids` on `data` records: one run each, in order. */
  function Firings(ids: seq<nat>, data: string): (r: seq<Firing>)
    ensures |r| == |ids|
    ensures forall k :: 0 <= k < |r| ==> r[k] == Firing(ids[k], data)
  {
    if ids == [] then [] else [Firing(ids[0], data)] + Firings(ids[1..], data)
  }

  lemma {:induction false} FiringsAppend(a: seq<nat>, b: seq<nat>, data: string)
    ensures Firings(a + b, data) == Firings(a, data) + Firings(b, data)
  {
    if a != [] {
      assert (a + b)[1..] == a[1..] + b;
      FiringsAppend(a[1..], b, data);
    }
  }

  /** A named channel; the socket's global channel is one. */
  class Channel {
    const name: string
    var subscribed: bool
    var global: bool
    var callbacks: map<string, seq<Callback>>

    constructor (name: string)
      ensures this.name == name && !subscribed && !global && callbacks == map[]
    {
      this.name := name;
      subscribed, global := false, false;
      callbacks := map[];
    }

    /** Binds `cb` under `event`, after the callbacks already bound there. */
    method Bind(event: string, cb: Callback)
      modifies this
      ensures callbacks == old(callbacks)[event := BoundTo(old(callbacks), event) + [cb]]
      ensures subscribed == old(subscribed) && global == old(global)
    {
      callbacks := callbacks[event := BoundTo(callbacks, event) + [cb]];
    }
  }

  /**
   * A subscription: a channel name together with the serialised user data
   * that identifies the local party on it. The pair is the registry's key
   * and never changes.
   */
  class Subscription {
    const channel: string
    const userData: string
    var subscribed: bool
    var global: bool
    var callbacks: map<string, seq<nat>>

    constructor (channel: string, userData: string)
      ensures this.channel == channel && this.userData == userData
      ensures !subscribed && !global && callbacks == map[]
    {
      this.channel, this.userData := channel, userData;
      subscribed, global := false, false;
      callbacks := map[];
    }

    /** Binds application callback `id` under `event`, after those already bound there. */
    method Bind(event: string, id: nat)
      modifies this
      ensures callbacks == old(callbacks)[event := BoundTo(old(callbacks), event) + [id]]
      ensures subscribed == old(subscribed) && global == old(global)
    {
      callbacks := callbacks[event := BoundTo(callbacks, event) + [id]];
    }

    /** The server accepted the subscription. */
    method AcknowledgeSubscription()
      modifies this`subscribed
      ensures subscribed
    {
      subscribed := true;
    }

    /** The connection went away: the subscription is no longer in force (assumed; the class is not part of this model). */
    method Disconnect()
      modifies this`subscribed
      ensures !subscribed
    {
      subscribed := false;
    }
  }
}
