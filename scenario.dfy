/**
  An end-to-end run of the server with concrete values: a subscriber B, a
  websocket update that B sends on its own socket, a late subscriber C, an
  HTTP merge, a second websocket update from B (which replaces the entity)
  and a clear.
 */
module Scenario {
  import opened Store
  import opened Clients
  import opened Worlds
  import opened Sockets

  /** The JSON values the run uses. */
  datatype Json = Str(s: string) | Num(n: int)

  /** B subscribes and sends {"x": {"color": "red"}} on its socket; C
      subscribes; then POST /entity/x with body {"size": 5}. B receives its
      own change back, as every subscriber does; C sees only the second
      change. */
  method FirstHalf() returns (server: Server<Json>, b: Client<Json>, c: Client<Json>,
                              afterFirst: Space<Json>, merged: Attrs<Json>)
    ensures fresh(server.world) && fresh(server.clients) && fresh(b) && fresh(c)
    ensures server.Valid() && server.clients.items == [b, c]
    ensures afterFirst == map["x" := map["color" := Str("red")]]
    ensures merged == map["color" := Str("red"), "size" := Num(5)]
    ensures server.world.space == map["x" := merged]
    ensures b.queue == [EntityUpdate("x", map["color" := Str("red")]), EntityUpdate("x", merged)]
    ensures c.queue == [EntityUpdate("x", merged)]
  {
    var red := map["color" := Str("red")];
    server := new Server<Json>();
    b := server.Subscribe();
    assert server.clients.items == [b];

    // B's websocket reader applies {"x": {"color": "red"}}.
    server.ApplyPacket([("x", red)]);
    assert SetAll(map[], [("x", red)]) == map["x" := red] by {
      assert [("x", red)][..0] == [];
    }
    assert SetTrail([SetListener], [("x", red)]) == [EntityUpdate("x", red)] by {
      SetTrailSingle([("x", red)]);
    }
    afterFirst := server.world.WorldMap();
    assert b == server.clients.items[0];
    assert b.queue == [EntityUpdate("x", red)];

    // C connects after that update.
    c := server.Subscribe();
    assert server.clients.items == [b, c] && c.queue == [];

    // POST /entity/x with body {"size": 5}: merged into x.
    ghost var before := server.world.space;
    assert Lookup(before, "x") == red;
    merged := server.UpdateRoute("x", [("size", Num(5))]);
    assert merged == red["size" := Num(5)] by {
      assert [("size", Num(5))][..0] == [];
    }
    assert UpdateTrail([SetListener], before, "x", [("size", Num(5))]) == [EntityUpdate("x", merged)] by {
      UpdateTrailSingle(before, "x", [("size", Num(5))]);
      assert [("size", Num(5))][..1] == [("size", Num(5))];
      assert [("size", Num(5))][..0] == [];
    }
    assert b == server.clients.items[0] && c == server.clients.items[1];
    assert merged == map["color" := Str("red"), "size" := Num(5)];
  }

  /** The whole run: after FirstHalf, B sends {"x": {"size": 5}}, which
      replaces x; then GET /clear; then B's and C's outbound loops drain
      their mailboxes. Each sees every change made after it subscribed, in
      order, each with the entity's full attributes, and then the reset. */
  method EndToEnd() returns (afterFirst: Space<Json>, merged: Attrs<Json>, afterReplace: Space<Json>,
                             cleared: Space<Json>, seenByB: seq<Msg<Json>>, seenByC: seq<Msg<Json>>)
    ensures afterFirst == map["x" := map["color" := Str("red")]]
    ensures merged == map["color" := Str("red"), "size" := Num(5)]
    ensures afterReplace == map["x" := map["size" := Num(5)]]
    ensures cleared == map[]
    ensures seenByB == [EntityUpdate("x", map["color" := Str("red")]),
                        EntityUpdate("x", map["color" := Str("red"), "size" := Num(5)]),
                        EntityUpdate("x", map["size" := Num(5)]),
                        Reset]
    ensures seenByC == [EntityUpdate("x", map["color" := Str("red"), "size" := Num(5)]),
                        EntityUpdate("x", map["size" := Num(5)]),
                        Reset]
  {
    var server, b, c;
    server, b, c, afterFirst, merged := FirstHalf();
    var size := map["size" := Num(5)];

    // B's websocket reader applies {"x": {"size": 5}}: x is replaced, not merged.
    ghost var before := server.world.space;
    server.ApplyPacket([("x", size)]);
    assert SetAll(before, [("x", size)]) == before["x" := size] by {
      assert [("x", size)][..0] == [];
    }
    assert SetTrail([SetListener], [("x", size)]) == [EntityUpdate("x", size)] by {
      SetTrailSingle([("x", size)]);
    }
    afterReplace := server.world.WorldMap();
    assert b == server.clients.items[0] && c == server.clients.items[1];

    // GET /clear.
    cleared := server.ClearRoute();
    assert b == server.clients.items[0] && c == server.clients.items[1];

    seenByB := SendPending(b);
    seenByC := SendPending(c);
  }
}
