/**
  The value semantics of the world store (class World of sockets.py): a map
  from entity name to attribute map, and the effect on it of the store's
  operations and of the loops that apply many of them.
  Attribute values are opaque: the type parameter V.
 */
module Store {

  datatype Option<T> = None | Some(value: T)

  /** One entity's attributes: attribute name to value. */
  type Attrs<V> = map<string, V>

  /** The whole world: entity name to attribute map. */
  type Space<V> = map<string, Attrs<V>>

  /** World.get: the entity's attributes, or the empty map for an unknown entity. */
  function Lookup<V>(space: Space<V>, e: string): (r: Attrs<V>)
    ensures e in space ==> r == space[e]
    ensures e !in space ==> r == map[]
  {
    if e in space then space[e] else map[]
  }

  /** The store after World.update(e, k, v): key k of e carries v, every other
      key of e and every other entity is kept, and e is created if absent. */
  function Merged<V>(space: Space<V>, e: string, k: string, v: V): (r: Space<V>)
    ensures r.Keys == space.Keys + {e}
    ensures r[e].Keys == Lookup(space, e).Keys + {k} && r[e][k] == v
    ensures forall k' :: k' in Lookup(space, e) && k' != k ==> r[e][k'] == Lookup(space, e)[k']
    ensures e !in space ==> r[e] == map[k := v]
    ensures forall e' :: e' in space && e' != e ==> r[e'] == space[e']
  {
    space[e := Lookup(space, e)[k := v]]
  }

  /** The store after World.set(e, d): e carries exactly d, whatever it held
      before, and every other entity is kept. */
  function Replaced<V>(space: Space<V>, e: string, d: Attrs<V>): (r: Space<V>)
    ensures r.Keys == space.Keys + {e}
    ensures Lookup(r, e) == d
    ensures forall e' :: e' in space && e' != e ==> r[e'] == space[e']
  {
    space[e := d]
  }

  /** Reference definition of "last write wins": the value of the last pair
      naming k, if any. */
  function LastWrite<X>(pairs: seq<(string, X)>, k: string): Option<X>
  {
    if pairs == [] then None
    else if pairs[|pairs| - 1].0 == k then Some(pairs[|pairs| - 1].1)
    else LastWrite(pairs[..|pairs| - 1], k)
  }

  /** An attribute map after assigning the pairs of body to it, in order. */
  function MergeAll<V>(a: Attrs<V>, body: seq<(string, V)>): Attrs<V>
  {
    if body == [] then a
    else MergeAll(a, body[..|body| - 1])[body[|body| - 1].0 := body[|body| - 1].1]
  }

  /** The store after one World.update(e, key, value) per pair of body, in
      order: the merge loop of the update route. */
  function MergeBody<V>(space: Space<V>, e: string, body: seq<(string, V)>): Space<V>
  {
    if body == [] then space
    else Merged(MergeBody(space, e, body[..|body| - 1]), e, body[|body| - 1].0, body[|body| - 1].1)
  }

  /** The store after one World.set(name, attrs) per pair of packet, in order:
      the apply loop of the websocket reader. */
  function SetAll<V>(space: Space<V>, packet: seq<(string, Attrs<V>)>): Space<V>
  {
    if packet == [] then space
    else Replaced(SetAll(space, packet[..|packet| - 1]), packet[|packet| - 1].0, packet[|packet| - 1].1)
  }

  /** Merging a body key by key: every key written carries its last written
      value, every other key of the original map keeps its value, and no
      other key appears. */
  lemma {:induction false} MergeAllLastWins<V>(a: Attrs<V>, body: seq<(string, V)>, k: string)
    ensures k in MergeAll(a, body) <==> (k in a || LastWrite(body, k).Some?)
    ensures LastWrite(body, k).Some? ==> MergeAll(a, body)[k] == LastWrite(body, k).value
    ensures LastWrite(body, k).None? && k in a ==> MergeAll(a, body)[k] == a[k]
  {
    if body != [] {
      MergeAllLastWins(a, body[..|body| - 1], k);
    }
  }

  /** The update route touches only its own entity: with an empty body the
      store is unchanged (the entity is not even created); otherwise the
      entity carries its old attributes merged with the body, and every other
      entity is kept. */
  lemma {:induction false} MergeBodyEntity<V>(space: Space<V>, e: string, body: seq<(string, V)>)
    ensures body == [] ==> MergeBody(space, e, body) == space
    ensures body != [] ==> MergeBody(space, e, body) == space[e := MergeAll(Lookup(space, e), body)]
  {
    if body != [] {
      var init := body[..|body| - 1];
      MergeBodyEntity(space, e, init);
      if init != [] {
        assert Lookup(MergeBody(space, e, init), e) == MergeAll(Lookup(space, e), init);
      } else {
        assert MergeAll(Lookup(space, e), init) == Lookup(space, e);
      }
    }
  }

  /** Replacing entities one by one: each named entity carries exactly the
      attributes of the last pair that names it, and every other entity keeps
      its attributes. */
  lemma {:induction false} SetAllLastWins<V>(space: Space<V>, packet: seq<(string, Attrs<V>)>, e: string)
    ensures e in SetAll(space, packet) <==> (e in space || LastWrite(packet, e).Some?)
    ensures LastWrite(packet, e).Some? ==> SetAll(space, packet)[e] == LastWrite(packet, e).value
    ensures LastWrite(packet, e).None? && e in space ==> SetAll(space, packet)[e] == space[e]
  {
    if packet != [] {
      SetAllLastWins(space, packet[..|packet| - 1], e);
    }
  }
}
