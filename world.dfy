/**
  The world store of sockets.py (class World): the entity map, its mutation
  operations and the list of set-listeners that every update or set calls
  with the touched entity and its full current attributes.
 */
module Worlds {
  import opened Store
  import opened Clients

  /** A registered set-listener. The source defines and registers one
      listener function, set_listener; it writes into the module-level client
      list, which the World below holds as `env`. */
  datatype Listener = SetListener

  /** The messages one listener call queues in each mailbox of `env`. */
  function Delivered<V>(l: Listener, e: string, d: Attrs<V>): seq<Msg<V>>
  {
    match l
    case SetListener => [EntityUpdate(e, d)]
  }

  /** The messages each mailbox gains when every listener of ls is called with
      (e, d), in registration order. */
  function Notifications<V>(ls: seq<Listener>, e: string, d: Attrs<V>): seq<Msg<V>>
  {
    if ls == [] then []
    else Notifications(ls[..|ls| - 1], e, d) + Delivered(ls[|ls| - 1], e, d)
  }

  /** The messages each mailbox gains from the update route's merge loop: after
      each key, one notification round carrying the entity's full attributes at
      that point. */
  function UpdateTrail<V>(ls: seq<Listener>, space: Space<V>, e: string, body: seq<(string, V)>): seq<Msg<V>>
  {
    if body == [] then []
    else UpdateTrail(ls, space, e, body[..|body| - 1]) + Notifications(ls, e, Lookup(MergeBody(space, e, body), e))
  }

  /** The messages each mailbox gains from the websocket apply loop: after each
      replaced entity, one notification round carrying its new attributes. */
  function SetTrail<V>(ls: seq<Listener>, packet: seq<(string, Attrs<V>)>): seq<Msg<V>>
  {
    if packet == [] then []
    else SetTrail(ls, packet[..|packet| - 1]) + Notifications(ls, packet[|packet| - 1].0, packet[|packet| - 1].1)
  }

  /** Every listener is called exactly once, and each call queues the touched
      entity with its full attribute map. */
  lemma {:induction false} NotificationsAt<V>(ls: seq<Listener>, e: string, d: Attrs<V>)
    ensures |Notifications(ls, e, d)| == |ls|
    ensures forall i :: 0 <= i < |ls| ==> Notifications(ls, e, d)[i] == EntityUpdate(e, d)
  {
    if ls != [] {
      NotificationsAt(ls[..|ls| - 1], e, d);
    }
  }

  /** With the one listener the server registers, the update route queues in
      each mailbox one message per body key, in body order, the i-th carrying
      the entity's whole attribute map after the first i + 1 keys. */
  lemma {:induction false} UpdateTrailSingle<V>(space: Space<V>, e: string, body: seq<(string, V)>)
    ensures |UpdateTrail([SetListener], space, e, body)| == |body|
    ensures forall i :: 0 <= i < |body| ==>
              UpdateTrail([SetListener], space, e, body)[i] == EntityUpdate(e, MergeAll(Lookup(space, e), body[..i + 1]))
  {
    if body != [] {
      var init := body[..|body| - 1];
      UpdateTrailSingle(space, e, init);
      MergeBodyEntity(space, e, body);
      NotificationsAt([SetListener], e, Lookup(MergeBody(space, e, body), e));
      var t := UpdateTrail([SetListener], space, e, body);
      forall i | 0 <= i < |body|
        ensures t[i] == EntityUpdate(e, MergeAll(Lookup(space, e), body[..i + 1]))
      {
        if i < |init| {
          assert init[..i + 1] == body[..i + 1];
        } else {
          assert body[..i + 1] == body;
        }
      }
    }
  }

  /** With the one listener the server registers, the websocket apply loop
      queues in each mailbox one message per packet entry, in packet order,
      each carrying that entry's entity and attributes. */
  lemma {:induction false} SetTrailSingle<V>(packet: seq<(string, Attrs<V>)>)
    ensures |SetTrail([SetListener], packet)| == |packet|
    ensures forall i :: 0 <= i < |packet| ==>
              SetTrail([SetListener], packet)[i] == EntityUpdate(packet[i].0, packet[i].1)
  {
    if packet != [] {
      SetTrailSingle(packet[..|packet| - 1]);
      NotificationsAt([SetListener], packet[|packet| - 1].0, packet[|packet| - 1].1);
    }
  }

  /** class World. */
  class World<V> {
    var space: Space<V>
    var listeners: seq<Listener>
    /** The client list the listeners write into (set_listener's global `clients`). */
    const env: ClientList<V>

    ghost predicate Valid()
      reads this, env
    {
      env.Valid()
    }

    /** World(): an empty store with no listeners. */
    constructor (env: ClientList<V>)
      ensures this.env == env
      ensures space == map[] && listeners == []
    {
      this.env := env;
      space := map[];
      listeners := [];
    }

    /** World.add_set_listener. */
    method AddSetListener(l: Listener)
      modifies this
      ensures listeners == old(listeners) + [l] && space == old(space)
    {
      listeners := listeners + [l];
    }

    /** World.get: a known entity's attributes, or the empty map for an
        unknown one; reading never adds the entity. */
    function Get(e: string): (r: Attrs<V>)
      reads this
      ensures e in space ==> r == space[e]
      ensures e !in space ==> r == map[]
    {
      Lookup(space, e)
    }

    /** World.world: the whole entity map, which names exactly the stored
        entities and agrees with get on every entity. */
    function WorldMap(): (r: Space<V>)
      reads this
      ensures r.Keys == space.Keys
      ensures forall e :: Lookup(r, e) == Get(e)
    {
      space
    }

    /** World.update_listeners(entity): every listener, in registration order,
        is called with the entity and its current attributes. */
    method UpdateListeners(e: string)
      requires Valid()
      modifies env.items
      ensures forall i :: 0 <= i < |env.items| ==>
                env.items[i].queue == old(env.items[i].queue) + Notifications(listeners, e, Get(e))
    {
      var i := 0;
      while i < |listeners|
        invariant 0 <= i <= |listeners|
        invariant forall j :: 0 <= j < |env.items| ==>
                    env.items[j].queue == old(env.items[j].queue) + Notifications(listeners[..i], e, Get(e))
      {
        match listeners[i]
        case SetListener => env.SetListener(e, Get(e));
        assert listeners[..i + 1][..i] == listeners[..i];
        i := i + 1;
      }
      assert listeners[..i] == listeners;
    }

    /** World.update(entity, key, value): merge one key, then notify. */
    method Update(e: string, k: string, v: V)
      requires Valid()
      modifies this, env.items
      ensures Valid() && listeners == old(listeners)
      ensures space == Merged(old(space), e, k, v)
      ensures forall i :: 0 <= i < |env.items| ==>
                env.items[i].queue == old(env.items[i].queue) + Notifications(listeners, e, space[e])
    {
      var entry := Get(e);
      entry := entry[k := v];
      space := space[e := entry];
      UpdateListeners(e);
    }

    /** World.set(entity, data): replace the entity's attributes, then notify. */
    method Set(e: string, d: Attrs<V>)
      requires Valid()
      modifies this, env.items
      ensures Valid() && listeners == old(listeners)
      ensures space == Replaced(old(space), e, d)
      ensures forall i :: 0 <= i < |env.items| ==>
                env.items[i].queue == old(env.items[i].queue) + Notifications(listeners, e, d)
    {
      space := space[e := d];
      UpdateListeners(e);
    }

    /** World.clear: the store becomes empty; no listener is called, so no
        mailbox changes. */
    method Clear()
      modifies this
      ensures space == map[] && listeners == old(listeners)
      ensures forall i :: 0 <= i < |env.items| ==> env.items[i].queue == old(env.items[i].queue)
    {
      space := map[];
    }
  }
}
