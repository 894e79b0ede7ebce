/** Routing by ZeroMQ sockets and the relay `Server` between the clients and the ship deck.

    A ROUTER puts the sender's id in front of what it receives, strips the first frame of what it sends, and
    delivers the rest to the peer with that id; a message for an unknown id is dropped. */
module Relay {
  import opened Defines

  function Prefixed(id: string, m: Frames): Frames {
    [id] + m
  }

  /** What reaches the peer `id` of a router that sends `messages`. */
  function Routed(messages: seq<Frames>, id: string): seq<Frames> {
    if messages == [] then []
    else
      var m := messages[0];
      (if m != [] && m[0] == id then [m[1..]] else []) + Routed(messages[1..], id)
  }

  lemma {:induction false} RoutedConcat(a: seq<Frames>, b: seq<Frames>, id: string)
    ensures Routed(a + b, id) == Routed(a, id) + Routed(b, id)
    decreases |a|
  {
    if a == [] {
      assert a + b == b;
    } else {
      assert (a + b)[1..] == a[1..] + b;
      RoutedConcat(a[1..], b, id);
    }
  }

  lemma RoutedOne(m: Frames, id: string)
    ensures Routed([m], id) == if m != [] && m[0] == id then [m[1..]] else []
  {
    assert [m][1..] == [];
  }

  /** A routed message reaches its addressee with exactly the first frame stripped, and nobody else. */
  lemma RoutedPrefixed(id: string, m: Frames, other: string)
    ensures Routed([Prefixed(id, m)], other) == if other == id then [m] else []
  {
    RoutedOne(Prefixed(id, m), other);
    assert Prefixed(id, m)[1..] == m;
  }

  /** The two relay loops. `fromClients` and `fromDeck` are the queues of the client router, with the client's
      id in front, and of the dealer; the other two are what was sent on. */
  class Server {
    var alive: bool
    var fromClients: seq<Frames>
    var fromDeck: seq<Frames>
    var toDeck: seq<Frames>
    var toClients: seq<Frames>

    constructor ()
      ensures alive && fromClients == fromDeck == toDeck == toClients == []
    {
      alive := true;
      fromClients, fromDeck, toDeck, toClients := [], [], [], [];
    }

    /** One turn of `client_listener_task`. */
    method ClientListenerTurn()
      modifies this
      ensures toDeck + fromClients == old(toDeck + fromClients)
      ensures |fromClients| == if old(fromClients) == [] then 0 else |old(fromClients)| - 1
      ensures alive == old(alive) && fromDeck == old(fromDeck) && toClients == old(toClients)
    {
      if fromClients != [] {
        var reqs := fromClients[0];
        fromClients := fromClients[1..];
        toDeck := toDeck + [reqs];
      }
    }

    /** One turn of `ship_listener_task` for the deck's socket. */
    method ShipListenerTurn()
      modifies this
      ensures toClients + fromDeck == old(toClients + fromDeck)
      ensures |fromDeck| == if old(fromDeck) == [] then 0 else |old(fromDeck)| - 1
      ensures alive == old(alive) && fromClients == old(fromClients) && toDeck == old(toDeck)
    {
      if fromDeck != [] {
        var reqs := fromDeck[0];
        fromDeck := fromDeck[1..];
        toClients := toClients + [reqs];
      }
    }
  }
}
