/**
  The server of sockets.py without its HTTP and websocket framework: the
  module-level world and client list, the mutation and broadcast parts of the
  update and clear routes, the websocket reader's apply loop, and the
  registration and removal of a subscriber's mailbox.
 */
module Sockets {
  import opened Store
  import opened Clients
  import opened Worlds

  /** What one ws.receive() gives the websocket reader: a text that decodes to
      a JSON object (its items in order), a text for which json.loads or
      .items() raises, or the end of the stream (None, or an exception
      raised by receive). */
  datatype Frame<V> = Text(packet: seq<(string, Attrs<V>)>) | Malformed | Closed

  /** The store after read_ws has consumed frames: each object is applied by
      replacement, and the first frame that is not an object ends the loop
      (the try block encloses the whole loop, so a decode error stops reading
      just as the end of the stream does). */
  function ApplyFrames<V>(space: Space<V>, frames: seq<Frame<V>>): Space<V>
    decreases |frames|
  {
    if frames == [] then space
    else match frames[0]
      case Text(packet) => ApplyFrames(SetAll(space, packet), frames[1..])
      case Malformed => space
      case Closed => space
  }

  /** The messages each mailbox gains while read_ws consumes frames. */
  function FramesTrail<V>(ls: seq<Listener>, frames: seq<Frame<V>>): seq<Msg<V>>
  {
    if frames == [] then []
    else match frames[0]
      case Text(packet) => SetTrail(ls, packet) + FramesTrail(ls, frames[1..])
      case Malformed => []
      case Closed => []
  }

  /** Nothing received after a malformed frame or the end of the stream is
      applied or broadcast. */
  lemma {:induction false} ApplyFramesStops<V>(ls: seq<Listener>, space: Space<V>, frames: seq<Frame<V>>, i: nat)
    requires i < |frames| && !frames[i].Text?
    ensures ApplyFrames(space, frames) == ApplyFrames(space, frames[..i])
    ensures FramesTrail(ls, frames) == FramesTrail(ls, frames[..i])
    decreases i
  {
    if i > 0 {
      assert frames[..i][0] == frames[0] && frames[..i][1..] == frames[1..][..i - 1];
      match frames[0]
      case Text(packet) => ApplyFramesStops(ls, SetAll(space, packet), frames[1..], i - 1);
      case Malformed =>
      case Closed =>
    }
  }

  /** The outbound loop of subscribe_socket, `ws.send(client.get())`, run
      until the mailbox is empty (where the source would block); the sequence
      returned stands for what is written to the websocket. */
  method SendPending<V>(c: Client<V>) returns (sent: seq<Msg<V>>)
    modifies c
    ensures sent == old(c.queue) && c.queue == []
  {
    sent := [];
    var next := c.Get();
    while next.Some?
      invariant next.Some? ==> sent + [next.value] + c.queue == old(c.queue)
      invariant next.None? ==> sent == old(c.queue) && c.queue == []
      decreases |c.queue|, next.Some?
    {
      sent := sent + [next.value];
      next := c.Get();
    }
  }

  /** The module-level state: myWorld, with set_listener registered, and the
      list of connected clients it writes to. */
  class Server<V> {
    const world: World<V>
    const clients: ClientList<V>

    ghost predicate Valid()
      reads this, world, clients
    {
      world.env == clients && clients.Valid() && world.listeners == [SetListener]
    }

    /** myWorld = World(); clients = list(); myWorld.add_set_listener(set_listener). */
    constructor ()
      ensures Valid() && fresh(world) && fresh(clients)
      ensures world.space == map[] && clients.items == []
    {
      var cs := new ClientList<V>();
      var w := new World<V>(cs);
      w.AddSetListener(SetListener);
      world := w;
      clients := cs;
    }

    /** The update route: one World.update per body key, in order; returns the
        entity afterwards. Every mailbox gains one snapshot per key. */
    method UpdateRoute(entity: string, body: seq<(string, V)>) returns (response: Attrs<V>)
      requires Valid()
      modifies world, clients.items
      ensures Valid()
      ensures world.space == MergeBody(old(world.space), entity, body)
      ensures body == [] ==> world.space == old(world.space) && response == Lookup(old(world.space), entity)
      ensures body != [] ==> world.space == old(world.space)[entity := response]
      ensures body != [] ==> response == MergeAll(Lookup(old(world.space), entity), body)
      ensures forall i :: 0 <= i < |clients.items| ==>
                clients.items[i].queue == old(clients.items[i].queue) + UpdateTrail(world.listeners, old(world.space), entity, body)
    {
      var i := 0;
      while i < |body|
        invariant 0 <= i <= |body|
        invariant Valid()
        invariant world.space == MergeBody(old(world.space), entity, body[..i])
        invariant forall j :: 0 <= j < |clients.items| ==>
                    clients.items[j].queue == old(clients.items[j].queue) + UpdateTrail(world.listeners, old(world.space), entity, body[..i])
      {
        var (key, value) := body[i];
        world.Update(entity, key, value);
        assert body[..i + 1][..i] == body[..i];
        i := i + 1;
      }
      assert body[..i] == body;
      response := world.Get(entity);
      MergeBodyEntity(old(world.space), entity, body);
    }

    /** The clear route: empty the store, queue one reset message in every
        mailbox, and return the (empty) world. */
    method ClearRoute() returns (response: Space<V>)
      requires Valid()
      modifies world, clients.items
      ensures Valid()
      ensures world.space == map[] && response == map[]
      ensures forall i :: 0 <= i < |clients.items| ==>
                clients.items[i].queue == old(clients.items[i].queue) + [Reset]
    {
      world.Clear();
      clients.PutAll(Reset);
      response := world.WorldMap();
    }

    /** The inner loop of read_ws: World.set for each entity of one decoded
        packet, in order. */
    method ApplyPacket(packet: seq<(string, Attrs<V>)>)
      requires Valid()
      modifies world, clients.items
      ensures Valid()
      ensures world.space == SetAll(old(world.space), packet)
      ensures forall i :: 0 <= i < |clients.items| ==>
                clients.items[i].queue == old(clients.items[i].queue) + SetTrail(world.listeners, packet)
    {
      var i := 0;
      while i < |packet|
        invariant 0 <= i <= |packet|
        invariant Valid()
        invariant world.space == SetAll(old(world.space), packet[..i])
        invariant forall j :: 0 <= j < |clients.items| ==>
                    clients.items[j].queue == old(clients.items[j].queue) + SetTrail(world.listeners, packet[..i])
      {
        var (name, data) := packet[i];
        world.Set(name, data);
        assert packet[..i + 1][..i] == packet[..i];
        i := i + 1;
      }
      assert packet[..i] == packet;
    }

    /** read_ws: apply each received object until the stream ends or a frame
        fails to decode. */
    method ReadWs(frames: seq<Frame<V>>)
      requires Valid()
      modifies world, clients.items
      ensures Valid()
      ensures world.space == ApplyFrames(old(world.space), frames)
      ensures forall i :: 0 <= i < |clients.items| ==>
                clients.items[i].queue == old(clients.items[i].queue) + FramesTrail(world.listeners, frames)
    {
      var i := 0;
      while i < |frames|
        invariant 0 <= i <= |frames|
        invariant Valid()
        invariant ApplyFrames(old(world.space), frames) == ApplyFrames(world.space, frames[i..])
        invariant forall j :: 0 <= j < |clients.items| ==>
                    old(clients.items[j].queue) + FramesTrail(world.listeners, frames)
                    == clients.items[j].queue + FramesTrail(world.listeners, frames[i..])
      {
        if !frames[i].Text? {
          break;
        }
        assert frames[i..][1..] == frames[i + 1..];
        ApplyPacket(frames[i].packet);
        i := i + 1;
      }
    }

    /** subscribe_socket's registration: a fresh mailbox joins the list. It is
        empty, so it never holds a message of an earlier mutation. */
    method Subscribe() returns (c: Client<V>)
      requires Valid()
      modifies clients
      ensures Valid() && fresh(c) && c.queue == []
      ensures clients.items == old(clients.items) + [c]
    {
      c := new Client<V>();
      clients.Append(c);
    }

    /** subscribe_socket's `finally`: clients.remove(client). The mailbox is
        the one Subscribe appended, and only this call removes it, so it is
        listed. */
    method Unsubscribe(c: Client<V>)
      requires Valid() && c in clients.items
      modifies clients
      ensures Valid() && c !in clients.items
      ensures |clients.items| == |old(clients.items)| - 1
      ensures clients.items == Without(old(clients.items), c)
    {
      clients.Remove(c);
    }
  }
}
