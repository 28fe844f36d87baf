/**
  Subscribers' mailboxes (class Client of sockets.py), the module-level list
  `clients` of connected subscribers, and the fan-out loops that push one
  message into every mailbox (set_listener and the clear route).
 */
module Clients {
  import opened Store

  /** A queued outbound message: the text `{entity: attrs}` that set_listener
      serialises, or the reset text `{}` that the clear route sends. The
      message is encoded when it is queued, so later changes to the store do
      not alter it: a value is exact. */
  datatype Msg<V> = EntityUpdate(entity: string, data: Attrs<V>) | Reset

  /** Client: an unbounded FIFO mailbox. */
  class Client<V> {
    var queue: seq<Msg<V>>

    constructor ()
      ensures queue == []
    {
      queue := [];
    }

    /** Client.put: append without blocking. */
    method Put(m: Msg<V>)
      modifies this
      ensures queue == old(queue) + [m]
    {
      queue := queue + [m];
    }

    /** Client.get: take the oldest message. On an empty mailbox the source
        blocks until a message arrives; here the call returns None and takes
        nothing. */
    method Get() returns (r: Option<Msg<V>>)
      modifies this
      ensures old(queue) == [] ==> r == None && queue == []
      ensures old(queue) != [] ==> r == Some(old(queue)[0]) && queue == old(queue)[1..]
    {
      if queue == [] {
        r := None;
      } else {
        r := Some(queue[0]);
        queue := queue[1..];
      }
    }
  }

  /** No element occurs twice. */
  ghost predicate Distinct<T>(s: seq<T>)
  {
    forall i, j :: 0 <= i < j < |s| ==> s[i] != s[j]
  }

  /** The position of the first occurrence of x in s. */
  function FirstIndex<T(==)>(s: seq<T>, x: T): (r: nat)
    requires x in s
    ensures r < |s| && s[r] == x && x !in s[..r]
  {
    if s[0] == x then 0 else 1 + FirstIndex(s[1..], x)
  }

  /** Python's list.remove on a list that holds x: s without the first
      occurrence of x. Where x does not occur, list.remove raises ValueError;
      this function then returns s itself. */
  function Without<T(==)>(s: seq<T>, x: T): (r: seq<T>)
    ensures x !in s ==> r == s
    ensures x in s ==> |r| == |s| - 1
  {
    if s == [] then []
    else if s[0] == x then s[1..]
    else [s[0]] + Without(s[1..], x)
  }

  /** Without cuts exactly the first occurrence out and keeps the order of
      the rest. */
  lemma {:induction false} WithoutFirst<T>(s: seq<T>, x: T)
    requires x in s
    ensures Without(s, x) == s[..FirstIndex(s, x)] + s[FirstIndex(s, x) + 1..]
  {
    if s[0] != x {
      var i := FirstIndex(s[1..], x);
      WithoutFirst(s[1..], x);
      assert s[..i + 1] == [s[0]] + s[1..][..i];
      assert s[i + 2..] == s[1..][i + 1..];
    }
  }

  /** The tail of a list without repetitions has none either, and does not
      hold the head. */
  lemma DistinctTail<T>(s: seq<T>)
    requires Distinct(s) && s != []
    ensures Distinct(s[1..]) && s[0] !in s[1..]
  {
  }

  /** Putting an element that a list without repetitions does not hold in
      front of it keeps it without repetitions. */
  lemma DistinctCons<T>(h: T, t: seq<T>)
    requires Distinct(t) && h !in t
    ensures Distinct([h] + t)
  {
  }

  /** Removing from a list without repetitions leaves a list without
      repetitions that holds every other element and not the removed one. */
  lemma {:induction false} WithoutDistinct<T>(s: seq<T>, x: T)
    requires Distinct(s)
    ensures Distinct(Without(s, x))
    ensures forall y :: y in Without(s, x) <==> y in s && y != x
  {
    if s != [] {
      DistinctTail(s);
      if s[0] != x {
        var t := Without(s[1..], x);
        WithoutDistinct(s[1..], x);
        assert Without(s, x) == [s[0]] + t;
        DistinctCons(s[0], t);
        assert forall y :: y in s <==> y == s[0] || y in s[1..];
      }
    }
  }

  /** The module-level list `clients`: the mailboxes of the connected
      subscribers, in connection order. */
  class ClientList<V> {
    var items: seq<Client<V>>

    /** Each subscriber is registered once. */
    ghost predicate Valid()
      reads this
    {
      Distinct(items)
    }

    constructor ()
      ensures Valid() && items == []
    {
      items := [];
    }

    /** clients.append(client) for a mailbox not yet in the list. */
    method Append(c: Client<V>)
      requires Valid() && c !in items
      modifies this
      ensures Valid() && items == old(items) + [c]
    {
      items := items + [c];
    }

    /** clients.remove(client) for a listed mailbox (an unlisted one makes
        list.remove raise ValueError). */
    method Remove(c: Client<V>)
      requires Valid() && c in items
      modifies this
      ensures Valid() && c !in items
      ensures |items| == |old(items)| - 1
      ensures items == Without(old(items), c)
    {
      WithoutDistinct(items, c);
      items := Without(items, c);
    }

    /** client.put(m) for every client, in list order. Every mailbox gains m
        at its end and keeps what it held before it. */
    method PutAll(m: Msg<V>)
      requires Valid()
      modifies items
      ensures forall i :: 0 <= i < |items| ==> items[i].queue == old(items[i].queue) + [m]
    {
      var i := 0;
      while i < |items|
        invariant 0 <= i <= |items|
        invariant forall j :: 0 <= j < i ==> items[j].queue == old(items[j].queue) + [m]
        invariant forall j :: i <= j < |items| ==> items[j].queue == old(items[j].queue)
      {
        items[i].Put(m);
        i := i + 1;
      }
    }

    /** set_listener(entity, data): one message `{entity: data}` to the end of
        every mailbox. */
    method SetListener(entity: string, data: Attrs<V>)
      requires Valid()
      modifies items
      ensures forall i :: 0 <= i < |items| ==>
                items[i].queue == old(items[i].queue) + [EntityUpdate(entity, data)]
    {
      PutAll(EntityUpdate(entity, data));
    }
  }
}
