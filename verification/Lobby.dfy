/** A cabin process: the registration handshake of `Cabin` and the message handler of `LobbyCabin`, which keeps
    its own set of user names and answers every text with one SEND for each of them. */
module Lobby {
  import opened Defines
  import opened Words

  // ----- Messages from the deck: [command, arguments...] -----

  datatype Order =
    | Seat(username: string)
    | Unseat(username: string)
    | Tell(sender: string, text: string)
    | Unhandled
    | Short

  function OrderOf(input: Frames): Order {
    if |input| < 1 then Short
    else if input[0] == "TEXT" then if |input| < 3 then Short else Tell(input[1], input[2])
    else if input[0] == "JOIN" then if |input| < 2 then Short else Seat(input[1])
    else if input[0] == "DISCONNECT" then if |input| < 2 then Short else Unseat(input[1])
    else Unhandled
  }

  function UsersAfter(users: set<string>, input: Frames): set<string> {
    match OrderOf(input)
    case Seat(username) => users + {username}
    case Unseat(username) => users - {username}
    case _ => users
  }

  /** The users a cabin ends up with after handling the messages of a queue in order. */
  function FinalUsers(users: set<string>, queue: seq<Frames>): set<string>
    decreases |queue|
  {
    if queue == [] then users else FinalUsers(UsersAfter(users, queue[0]), queue[1..])
  }

  /** A text and the names it is addressed to. */
  datatype Notice = Notice(sender: string, text: string, audience: set<string>)

  function NoticesAt(users: set<string>, input: Frames): seq<Notice> {
    match OrderOf(input)
    case Tell(sender, text) => [Notice(sender, text, users)]
    case _ => []
  }

  /** The texts a cabin broadcasts while handling the messages of a queue in order. */
  function Replay(users: set<string>, queue: seq<Frames>): seq<Notice>
    decreases |queue|
  {
    if queue == [] then []
    else NoticesAt(users, queue[0]) + Replay(UsersAfter(users, queue[0]), queue[1..])
  }

  lemma {:induction false} FinalUsersConcat(users: set<string>, a: seq<Frames>, b: seq<Frames>)
    ensures FinalUsers(users, a + b) == FinalUsers(FinalUsers(users, a), b)
    decreases |a|
  {
    if a == [] {
      assert a + b == b;
    } else {
      assert (a + b)[1..] == a[1..] + b;
      FinalUsersConcat(UsersAfter(users, a[0]), a[1..], b);
    }
  }

  lemma {:induction false} ReplayConcat(users: set<string>, a: seq<Frames>, b: seq<Frames>)
    ensures Replay(users, a + b) == Replay(users, a) + Replay(FinalUsers(users, a), b)
    decreases |a|
  {
    if a == [] {
      assert a + b == b;
    } else {
      assert (a + b)[1..] == a[1..] + b;
      ReplayConcat(UsersAfter(users, a[0]), a[1..], b);
    }
  }

  /** The same texts by the same senders, whomever they are addressed to. */
  ghost predicate SameTexts(a: seq<Notice>, b: seq<Notice>) {
    |a| == |b| && forall k :: 0 <= k < |a| ==> a[k].sender == b[k].sender && a[k].text == b[k].text
  }

  lemma SameTextsConcat(a: seq<Notice>, b: seq<Notice>, more: seq<Notice>, others: seq<Notice>)
    requires SameTexts(a, b) && SameTexts(more, others)
    ensures SameTexts(a + more, b + others)
  {
  }

  /** Which texts a queue makes a cabin broadcast does not depend on its users. */
  lemma {:induction false} ReplayTexts(users: set<string>, others: set<string>, queue: seq<Frames>)
    ensures SameTexts(Replay(users, queue), Replay(others, queue))
    decreases |queue|
  {
    if queue == [] {
      assert Replay(users, queue) == Replay(others, queue) == [];
    } else {
      ReplayTexts(UsersAfter(users, queue[0]), UsersAfter(others, queue[0]), queue[1..]);
    }
  }

  /** One SEND of a broadcast. */
  function SendMsg(username: string, sender: string, text: string): Frames {
    ["SEND", "TEXT", username, sender, text]
  }

  /** The SENDs of one broadcast, in the order in which the users are visited. */
  function SendAll(order: seq<string>, sender: string, text: string): (sends: seq<Frames>)
    ensures |sends| == |order|
  {
    seq(|order|, i requires 0 <= i < |order| => SendMsg(order[i], sender, text))
  }

  /** Each order visits exactly the audience of its notice. */
  ghost predicate Address(orders: seq<seq<string>>, notices: seq<Notice>) {
    |orders| == |notices| && forall k :: 0 <= k < |orders| ==> Enumerates(orders[k], notices[k].audience)
  }

  /** The SENDs of a list of broadcasts. */
  function SendEach(orders: seq<seq<string>>, notices: seq<Notice>): seq<Frames>
    requires |orders| == |notices|
  {
    if orders == [] then []
    else
      var n := |orders| - 1;
      SendEach(orders[..n], notices[..n]) + SendAll(orders[n], notices[n].sender, notices[n].text)
  }

  const REGISTRATION: Frames := ["REGISTRATION", "JOIN"]

  /** The frames of the info message; a cabin's own count stays zero. */
  function InfoMsg(title: string, description: string): Frames {
    [title, description, Decimal(0)]
  }

  predicate Accepts(reply: Frames) {
    |reply| >= 3 && reply[0] == "SHIP" && reply[1] == "SUCCESS"
  }

  class LobbyCabin {
    const title: string
    const description: string
    var alive: bool
    var id: string
    var playing: u32
    var users: set<string>
    var sent: seq<Frames>

    /** Sends the registration; `Authenticate` continues with the reply. */
    constructor (title: string, description: string)
      ensures this.title == title && this.description == description
      ensures playing == 0 && users == {} && sent == [["REGISTRATION", "JOIN"]]
    {
      this.title, this.description := title, description;
      alive, id, playing, users := false, "", 0, {};
      sent := [["REGISTRATION", "JOIN"]];
    }

    method Authenticate(reply: Frames)
      requires |reply| >= 1
      requires reply[0] == "SHIP" ==> |reply| >= 2 && (reply[1] == "SUCCESS" ==> |reply| >= 3)
      requires playing == 0
      modifies this`alive, this`id, this`sent
      ensures alive <==> reply[0] == "SHIP" && reply[1] == "SUCCESS"
      ensures id == if alive then reply[2] else old(id)
      ensures sent == old(sent) + if alive then [[title, description, "0"]] else []
      ensures alive == Accepts(reply)
      ensures sent == old(sent) + if alive then [InfoMsg(title, description)] else []
    {
      if reply[0] == "SHIP" && reply[1] == "SUCCESS" {
        id := reply[2];
        sent := sent + [[title, description, Decimal(playing)]];
        alive := true;
      } else {
        alive := false;
      }
    }

    /** `order` is the order in which the loop over the users visited them, empty if there was no loop. */
    method HandleShipdeckInput(input: Frames) returns (order: seq<string>)
      requires |input| >= 1 && (input[0] == "TEXT" ==> |input| >= 3)
      requires input[0] == "JOIN" || input[0] == "DISCONNECT" ==> |input| >= 2
      modifies this`users, this`sent
      ensures users == if input[0] == "JOIN" then old(users) + {input[1]}
                       else if input[0] == "DISCONNECT" then old(users) - {input[1]}
                       else old(users)
      ensures if input[0] == "TEXT" then Enumerates(order, old(users)) else order == []
      ensures |sent| == old(|sent|) + |order| && sent[..old(|sent|)] == old(sent)
      ensures forall i :: 0 <= i < |order| ==>
                sent[old(|sent|) + i] == ["SEND", "TEXT", order[i], input[1], input[2]]
      ensures users == UsersAfter(old(users), input)
      ensures match OrderOf(input)
              case Tell(sender, text) =>
                Enumerates(order, old(users)) && sent == old(sent) + SendAll(order, sender, text)
              case _ => order == [] && sent == old(sent)
    {
      order := [];
      if input[0] == "TEXT" {
        var username, text := input[1], input[2];
        var remaining := users;
        while remaining != {}
          invariant users == old(users) && remaining <= users
          invariant Enumerates(order, users - remaining)
          invariant sent == old(sent) + SendAll(order, username, text)
          decreases |remaining|
        {
          var user :| user in remaining;
          sent := sent + [["SEND", "TEXT", user, username, text]];
          remaining := remaining - {user};
          order := order + [user];
        }
        assert users - remaining == users;
      } else if input[0] == "JOIN" {
        users := users + {input[1]};
      } else if input[0] == "DISCONNECT" {
        users := users - {input[1]};
      }
    }

    /** The poll loop over a queue of messages: the users and the broadcasts are those `FinalUsers` and `Replay`
        give, each broadcast in an order of its own. */
    method PollLoop(queue: seq<Frames>) returns (orders: seq<seq<string>>)
      requires forall i :: 0 <= i < |queue| ==> !OrderOf(queue[i]).Short?
      modifies this`users, this`sent
      ensures users == FinalUsers(old(users), queue)
      ensures Address(orders, Replay(old(users), queue))
      ensures sent == old(sent) + SendEach(orders, Replay(old(users), queue))
    {
      orders := [];
      ghost var notices := [];
      assert queue[..0] == [];
      assert Address(orders, notices) && sent + SendEach(orders, notices) == sent;
      assert FinalUsers(users, []) == users && Replay(users, []) == [];
      hide FinalUsers, Replay, SendEach, SendAll, Address, Enumerates;
      for i := 0 to |queue|
        invariant users == FinalUsers(old(users), queue[..i])
        invariant notices == Replay(old(users), queue[..i])
        invariant |orders| == |notices|
        invariant Address(orders, notices)
        invariant sent == old(sent) + SendEach(orders, notices)
      {
        ghost var audience := users;
        var order := HandleShipdeckInput(queue[i]);
        ReplayOfOneMore(old(users), queue, i);
        if OrderOf(queue[i]).Tell? {
          ghost var notice := NoticesAt(audience, queue[i])[0];
          SendEachOfOneMore(orders, notices, order, notice, old(sent));
          AddressOneMore(orders, notices, order, notice);
          orders, notices := orders + [order], notices + [notice];
        } else {
          assert notices + [] == notices;
        }
      }
      assert queue[..|queue|] == queue;
    }
  }

  lemma ReplayOfOneMore(users: set<string>, queue: seq<Frames>, i: nat)
    requires i < |queue|
    ensures FinalUsers(users, queue[..i + 1]) == UsersAfter(FinalUsers(users, queue[..i]), queue[i])
    ensures Replay(users, queue[..i + 1])
         == Replay(users, queue[..i]) + NoticesAt(FinalUsers(users, queue[..i]), queue[i])
  {
    var one := [queue[i]];
    assert queue[..i + 1] == queue[..i] + one;
    FinalUsersConcat(users, queue[..i], one);
    ReplayConcat(users, queue[..i], one);
    assert one[1..] == [];
  }

  lemma AddressOneMore(orders: seq<seq<string>>, notices: seq<Notice>, order: seq<string>, notice: Notice)
    requires Address(orders, notices) && Enumerates(order, notice.audience)
    ensures Address(orders + [order], notices + [notice])
  {
    hide Enumerates;
  }

  lemma SendEachOneMore(orders: seq<seq<string>>, notices: seq<Notice>, order: seq<string>, notice: Notice)
    requires |orders| == |notices|
    ensures SendEach(orders + [order], notices + [notice])
         == SendEach(orders, notices) + SendAll(order, notice.sender, notice.text)
  {
    var os, ns := orders + [order], notices + [notice];
    assert os[..|orders|] == orders && ns[..|orders|] == notices;
    assert os[|orders|] == order && ns[|orders|] == notice && os != [];
    hide SendAll;
  }

  lemma Associate<T>(a: seq<T>, b: seq<T>, c: seq<T>)
    ensures a + (b + c) == a + b + c
  {
  }

  lemma SendEachOfOneMore(orders: seq<seq<string>>, notices: seq<Notice>, order: seq<string>, notice: Notice,
                          before: seq<Frames>)
    requires |orders| == |notices|
    ensures before + SendEach(orders + [order], notices + [notice])
         == before + SendEach(orders, notices) + SendAll(order, notice.sender, notice.text)
  {
    hide SendEach, SendAll;
    SendEachOneMore(orders, notices, order, notice);
    Associate(before, SendEach(orders, notices), SendAll(order, notice.sender, notice.text));
  }
}
