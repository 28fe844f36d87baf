# Shared world store with websocket fan-out, in Dafny

This project models `sockets.py`, a small Flask server. It keeps a shared
"world", a map from entity name to attribute map, and pushes every change to
every connected websocket subscriber. The model covers these parts:

- **The store** (class `World`). `update` merges one key into an entity,
  creating the entity if it is absent. `set` replaces an entity's attributes
  wholesale. `get` returns an entity's attributes, or the empty map when the
  entity is unknown, and it never adds the entity. `world` returns the whole
  map. `clear` empties the store. The store also holds a list of
  set-listeners. After every `update` or `set`, each listener is called once,
  in registration order, with the entity and its full current attributes.
- **The mailboxes** (class `Client`). Each is an unbounded FIFO queue of
  outbound messages.
- **The module-level list `clients`**, and **`set_listener`**. For a change,
  `set_listener` queues one `{entity: attrs}` message at the end of every
  mailbox.
- **The route logic, without HTTP.** The update route merges a request body
  key by key and returns the entity. The clear route empties the store and
  queues a reset message `{}` for every subscriber. The websocket reader
  applies each received object by replacement. A subscriber's mailbox is
  registered when it connects and removed when it leaves.

Messages are values (`Msg = EntityUpdate(entity, attrs) | Reset`). Attribute
values are an opaque type parameter `V`. `json.dumps` serialises a snapshot
when it queues a message, so a message queued earlier is never changed by a
later mutation. Value messages model this exactly.

Modules:

- `Store` (store.dfy) holds the value semantics of the dict operations, and
  of the loops that apply many of them.
- `Clients` (clients.dfy) holds `Msg`, `Client`, `ClientList` (the global
  `clients`) and the fan-out loops.
- `Worlds` (world.dfy) holds the `World` class, its listeners, and the
  message sequences that each mailbox gains.
- `Sockets` (sockets.dfy) holds sockets.py's module-level state: the `Server` class with
  the routes, `read_ws`, subscription and the outbound loop.
- `Scenario` (scenario.dfy) is a concrete end-to-end run, verified.

The source defines and registers exactly one listener function,
`set_listener`. It closes over the global `clients` list. In the model,
`Listener` is a datatype with that one case, and `World.env` is the client
list the listener writes into. `World.Get` and `World.WorldMap` are `get` and
`world`: they are functions that read the store, so they cannot change it. A
request body and a decoded websocket packet are sequences of pairs in dict
iteration order. The source passes a dict's items, whose keys are distinct.
The model takes any sequence of pairs; where a key repeats, each pair is its own
mutation and notification, and the last write wins.

### Behaviours of the code worth noting

- Inbound websocket objects replace the entity with `set`; they are not
  merged (sockets.py:103). The second websocket object of the scenario
  therefore leaves `x` = `{size: 5}`.
- A frame that fails to decode ends `read_ws`; it is not skipped (the `try`
  at sockets.py:95-107 encloses the whole loop).
- `World.clear` notifies nobody (sockets.py:53-54). The reset message is
  queued by the clear route (sockets.py:170-171).
- When `read_ws` ends, the subscriber stays registered. Its outbound loop
  keeps delivering until a send fails (sockets.py:117-126).

## Model

| member | source | states |
|---|---|---|
| `Store.Lookup` | sockets.py:56-57 | get: a known entity's attributes, or the empty map for an unknown entity (`World.Get` is Lookup on the current store, read-only) |
| `Store.Merged` | sockets.py:38-41 | update(e,k,v): key k of e carries v; every other key of e keeps its value; e is created as {k:v} if absent; every other entity is unchanged; no other entity appears |
| `Store.Replaced` | sockets.py:44-45 | set(e,d): get(e) is exactly d, whatever e held before; every other entity is unchanged |
| `Store.MergeAllLastWins` | sockets.py:147-148 | merging a body key by key: a written key carries its last written value; an unwritten key keeps its old value; no other key appears |
| `Store.MergeBodyEntity` | sockets.py:147-151 | the update route's loop over World.update changes only its entity: an empty body leaves the store unchanged and does not create the entity; otherwise the entity becomes its old attributes merged with the body |
| `Store.SetAllLastWins` | sockets.py:102-103 | the websocket apply loop replaces each named entity wholesale, with the attributes of the last entry naming it; other entities are kept |
| `Clients.Client.constructor` | sockets.py:65-66 | a new mailbox is empty |
| `Clients.Client.Put` | sockets.py:68-69 | put appends the message at the end and keeps the earlier messages |
| `Clients.Client.Get` | sockets.py:71-72 | get takes the oldest message and leaves the rest in order; on an empty mailbox it takes nothing |
| `Clients.FirstIndex` | sockets.py:125 | the position that list.remove searches for: the first occurrence |
| `Clients.Without` | sockets.py:125 | list.remove of an element the list holds: exactly one element fewer (the unheld case, where Python raises, is under Left out) |
| `Clients.WithoutFirst` | sockets.py:125 | list.remove cuts out exactly the first occurrence and keeps the order of the rest |
| `Clients.WithoutDistinct` | sockets.py:125 | removing a mailbox from a list without repetitions keeps it without repetitions, drops that mailbox and keeps every other one |
| `Clients.ClientList.constructor` | sockets.py:75 | the client list starts empty |
| `Clients.ClientList.Append` | sockets.py:116 | registration adds the mailbox at the end; the list stays without repetitions |
| `Clients.ClientList.Remove` | sockets.py:125 | removal of a listed mailbox: it is no longer listed; the list is one shorter and the others stay in order, each once |
| `Clients.ClientList.PutAll` | sockets.py:170-171 | every listed mailbox gains exactly the one message at its end and keeps its earlier messages |
| `Clients.ClientList.SetListener` | sockets.py:77-82 | set_listener(e,d): every listed mailbox gains exactly one message {e: d} at its end |
| `Worlds.NotificationsAt` | sockets.py:48-51 | one notification round calls every listener exactly once; each call queues the touched entity with its full attribute map |
| `Worlds.UpdateTrailSingle` | sockets.py:147-148 | with set_listener registered, the update route queues one message per body key in body order; the i-th holds the entity's whole attribute map after the first i+1 keys |
| `Worlds.SetTrailSingle` | sockets.py:102-103 | with set_listener registered, the websocket apply loop queues one message per packet entry in order, holding that entity and its new attributes |
| `Worlds.World.Get` | sockets.py:56-57 | get: a stored entity's attributes, or the empty map for an unknown entity; the store is only read |
| `Worlds.World.WorldMap` | sockets.py:59-60 | world: a map naming exactly the stored entities, agreeing with get on each |
| `Worlds.World.constructor` | sockets.py:30-33 | a new world is empty and has no listeners |
| `Worlds.World.AddSetListener` | sockets.py:35-36 | add_set_listener appends the listener and leaves the store unchanged |
| `Worlds.World.UpdateListeners` | sockets.py:48-51 | every mailbox gains exactly the messages of calling each listener once, in registration order, with the entity's current attributes; the store is unchanged |
| `Worlds.World.Update` | sockets.py:38-42 | the store becomes Merged(old, e, k, v); every mailbox gains one round of notifications carrying e's full new attributes; the listeners are unchanged |
| `Worlds.World.Set` | sockets.py:44-46 | the store becomes Replaced(old, e, d); every mailbox gains one round of notifications carrying d |
| `Worlds.World.Clear` | sockets.py:53-54 | the store becomes empty; no mailbox changes, since no listener is called |
| `Sockets.ApplyFramesStops` | sockets.py:95-107 | nothing received after a malformed frame or the end of the stream is applied to the store or broadcast |
| `Sockets.SendPending` | sockets.py:119-121 | the outbound loop delivers the queued messages in FIFO order and empties the mailbox |
| `Sockets.Server.constructor` | sockets.py:74-84 | the server starts with an empty world, an empty client list and set_listener as its only listener |
| `Sockets.Server.UpdateRoute` | sockets.py:147-151 | the store becomes the body merged into the entity, the empty body changing nothing; the response is the entity's attributes afterwards, i.e. its old attributes with each body key's last value; every mailbox gains the update trail |
| `Sockets.Server.ClearRoute` | sockets.py:169-173 | the store is empty; the response is the empty world; every registered mailbox gains exactly one Reset at its end |
| `Sockets.Server.ApplyPacket` | sockets.py:101-103 | the store becomes SetAll(old, packet) (replacement per entity); every mailbox gains the set trail |
| `Sockets.Server.ReadWs` | sockets.py:95-107 | the store becomes ApplyFrames(old, frames): objects are applied in order until the first frame that is not an object; every mailbox gains the matching messages |
| `Sockets.Server.Subscribe` | sockets.py:115-116 | a fresh, empty mailbox joins the end of the list, so it never holds a message of an earlier mutation |
| `Sockets.Server.Unsubscribe` | sockets.py:124-125 | the subscriber's own mailbox, listed since it subscribed (sockets.py:116), is removed from the list; the list is one shorter; no mailbox's contents change |
| `Scenario.FirstHalf` | sockets.py:100-152 | concrete run: B subscribes and sends a websocket object, C subscribes late, then an HTTP merge; B gets its own change back, C sees only the second change |
| `Scenario.EndToEnd` | sockets.py:100-173 | concrete run: each subscriber's outbound loop yields every change made after it subscribed, in order, each with the full attributes, then the reset; B's second websocket object replaces x |

## Left out

- Flask app setup, the routing decorators, `flask.jsonify`, the `/` redirect and `app.run` (sockets.py:16-27, 86-89, 175-181) are framework I/O.
- The GET routes `/world` and `/entity/<entity>` (sockets.py:154-164) only wrap `World.WorldMap` and `World.Get` in `flask.jsonify`.
- `flask_post_json` (sockets.py:131-139) calls Flask and `json`. The update route receives its body already decoded, as a sequence of pairs.
- JSON encoding and decoding are out. Messages and values are abstract. A text that `json.loads` rejects, or whose decoded value is not an object (so `.items()` raises), is the `Malformed` frame.
- `set` with a value that is not a mapping is out, because attribute maps are typed.
- Websocket transport is out. `ws.receive` becomes the `frames` parameter of `ReadWs`, and an exception from `receive` counts as `Closed`. `ws.send` becomes the sequence that `SendPending` returns. A failed send, which ends `subscribe_socket`, is not modelled.
- `gevent.spawn`/`gevent.kill` and concurrency are out. The model is sequential: one operation runs at a time, and each loop runs to completion.
- Clients.Without: where the element does not occur, returns the list unchanged, where `list.remove` raises `ValueError`. `ClientList.Remove` and `Server.Unsubscribe` require the mailbox to be listed, which the source guarantees: it is appended on connect (sockets.py:116) and removed only in that connection's `finally` (sockets.py:124-125).
- Clients.Client.Get: returns `None` on an empty mailbox, where `queue.Queue.get` blocks until a message arrives.
- Sockets.SendPending: stops when the mailbox is empty, where the source's loop blocks for the next message.
- Sockets.Server.ReadWs: `frames` is a finite sequence. Reaching its end without a `Closed` frame stands for "no further frame yet".
- Python dict aliasing is out. `set` stores the caller's dict, which `update` later mutates in place, and `world()` returns the live dict (sockets.py:39-41, 45, 60). Maps are values here.
- `print` logging is out (sockets.py:98, 114, 123).
- The listener list only ever holds `set_listener`: the source registers nothing else, so `Listener` has that one case.
