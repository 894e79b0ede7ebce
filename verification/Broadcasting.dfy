/** Broadcasts in every run: whom a text addresses, in which order a member sees the texts of a cabin, where a
    delivered text comes from, and when every member gets exactly one copy. */
module Broadcasting {
  import opened CabinSteps
  import opened Client
  import opened ClientSteps
  import opened Deck
  import opened Defines
  import opened History
  import opened Invariant
  import opened Ledger
  import opened Lobby
  import opened Membership
  import opened Relay
  import opened Rosters
  import opened Steps
  import opened World
  import opened Wrappers

  // ----- Whom a text addresses -----

  /** The cabin addressed its `k`-th text to exactly the names of the clients that were online in the cabin when step
      `i` of the run forwarded it. */
  ghost predicate AddressedAt(w: World, actions: seq<Action>, cab: string, k: nat, i: nat)
    requires Runs(w, actions)
  {
    && ForwardedAt(w, actions, cab, k, i)
    && var u, p := After(w, actions[..i]), After(w, actions).cabins[cab];
       && k < |p.broadcasts| && p.broadcasts[k].text == RequestAt(u).text
       && p.broadcasts[k].sender == u.deck.clients[Sender(u)].username
       && Enumerates(p.broadcasts[k].order, Names(u.deck, cab))
  }

  ghost predicate WasAddressed(w: World, actions: seq<Action>, cab: string, k: nat)
    requires Runs(w, actions)
  {
    exists i :: AddressedAt(w, actions, cab, k, i)
  }

  /** In every run without shared names, the users a cabin addressed for its k-th text are exactly the names of the
      clients that were online in the cabin when the deck forwarded that text, whatever joins and leaves were queued
      around it; the texts still in its queue are the texts forwarded since, and will be addressed likewise; and its
      SENDs, handled or pending, are these broadcasts and nothing else. */
  lemma SnapshotBroadcast(serverId: string, actions: seq<Action>, cab: string)
    requires Runs(Init(serverId), actions) && Unshared(Init(serverId), actions)
    requires var w := After(Init(serverId), actions); cab in w.cabins && cab in w.deck.cabins
    ensures var p := After(Init(serverId), actions).cabins[cab];
            && (forall k :: 0 <= k < |p.broadcasts| ==> WasAddressed(Init(serverId), actions, cab, k))
            && (forall k :: 0 <= k < |p.notices| ==> WasForwarded(Init(serverId), actions, cab, k))
            && |p.broadcasts| <= |p.notices| && Replay(p.users, p.inbox) == p.notices[|p.broadcasts|..]
            && |p.settled| <= |Copies(p.broadcasts)|
            && p.outbox == SendsOf(Copies(p.broadcasts)[|p.settled|..])
            && forall i :: 0 <= i < |p.settled| ==> p.settled[i].username == Copies(p.broadcasts)[i].username
  {
    var w := After(Init(serverId), actions);
    var p := w.cabins[cab];
    hide Runs, After, Unshared, Known, Roster, Stable, ForwardedAt, AddressedAt, Enabled, Next, Members, Names, Copies,
      SendsOf;
    ReachableInStepCabin(w, cab);
    forall k | 0 <= k < |p.notices|
      ensures WasForwarded(Init(serverId), actions, cab, k)
      ensures k < |p.broadcasts| ==> WasAddressed(Init(serverId), actions, cab, k)
    {
      InitHolds(serverId);
      EveryTextWasForwarded(Init(serverId), actions, cab, k);
      var i :| ForwardedAt(Init(serverId), actions, cab, k, i);
      if k < |p.broadcasts| {
        ForwardedIsAddressed(Init(serverId), actions, cab, k, i);
      }
    }
  }

  lemma ForwardedIsAddressed(w: World, actions: seq<Action>, cab: string, k: nat, i: nat)
    requires Runs(w, actions) && ForwardedAt(w, actions, cab, k, i)
    requires var p := After(w, actions).cabins[cab]; k < |p.broadcasts| && AllAnswer(p.broadcasts, p.notices)
    ensures AddressedAt(w, actions, cab, k, i)
  {
    hide Runs, After, Next, Enabled, Submitted, Members, Names, CrewRequest, Enumerates;
    var p := After(w, actions).cabins[cab];
    assert Answers(p.broadcasts[k], p.notices[k]);
  }

  /** Every broadcast text has exactly one copy for each name in its audience, and none for anybody else. */
  lemma OneCopyForEachName(w: World, cab: string, k: nat, username: string)
    requires ReachableUnshared(w) && cab in w.cabins && cab in w.deck.cabins && k < |w.cabins[cab].broadcasts|
    ensures var p := w.cabins[cab];
            var copies := Copies(p.broadcasts);
            && |p.broadcasts| <= |p.notices|
            && (username in p.notices[k].audience <==>
                  exists n: nat :: n < |copies| && copies[n].index == k && copies[n].username == username)
            && (forall m: nat, n: nat :: m < |copies| && n < |copies|
                  && copies[m].index == copies[n].index == k && copies[m].username == copies[n].username == username
                  ==> m == n)
  {
    hide ReachableUnshared, Known, Roster, Stable, Ledgered;
    ReachableInStepCabin(w, cab);
    var p := w.cabins[cab];
    var copies := Copies(p.broadcasts);
    assert Answers(p.broadcasts[k], p.notices[k]);
    OrdersDistinct(p);
    if username in p.notices[k].audience {
      var n := CopyExists(p.broadcasts, k, username);
      assert copies[n].index == k && copies[n].username == username;
    }
    forall n: nat | n < |copies| && copies[n].index == k && copies[n].username == username
      ensures username in p.notices[k].audience
    {
      CopyBelongs(p.broadcasts, n);
    }
    forall m: nat, n: nat | m < n < |copies| && copies[m].username == copies[n].username
      ensures copies[m].index != copies[n].index
    {
      CopiesIncrease(p.broadcasts, m, n);
    }
  }

  lemma OrdersDistinct(p: CabinProc)
    requires AllCarry(p.broadcasts, p.notices)
    ensures forall k :: 0 <= k < |p.broadcasts| ==> Distinct(p.broadcasts[k].order)
  {
    forall k | 0 <= k < |p.broadcasts|
      ensures Distinct(p.broadcasts[k].order)
    {
      assert Carries(p.broadcasts[k], p.notices[k]);
    }
  }

  // ----- The order of a cabin's texts -----

  /** The messages of one cabin among those the deck sent to a client, in order. */
  function TextsFrom(emitted: seq<Emission>, cab: string): seq<Frames> {
    if emitted == [] then []
    else
      var e := emitted[|emitted| - 1];
      TextsFrom(emitted[..|emitted| - 1], cab)
      + if e.origin.Some? && e.origin.value.cabin == cab then [e.frames] else []
  }

  /** `numbers` are the numbers, among the texts forwarded to the cabin, of the texts of a client's messages. */
  ghost predicate Numbers(numbers: seq<nat>, p: CabinProc, texts: seq<Frames>) {
    && |numbers| == |texts|
    && (forall i :: 0 <= i < |numbers| ==>
          && numbers[i] < |p.notices|
          && texts[i] == ["CABIN", "TEXT", p.notices[numbers[i]].sender, p.notices[numbers[i]].text])
    && (forall i, j :: 0 <= i < j < |numbers| ==> numbers[i] < numbers[j])
  }

  /** The numbers of the texts whose SENDs were delivered to a client. */
  ghost function TextNumbers(p: CabinProc, c: string): (numbers: seq<nat>)
    ensures |numbers| == |DeliveredTo(p.settled, c)|
  {
    var ns, copies := DeliveredTo(p.settled, c), Copies(p.broadcasts);
    seq(|ns|, i requires 0 <= i < |ns| => if ns[i] < |copies| then copies[ns[i]].index else 0)
  }

  /** The texts a client got from a cabin carry what their SENDs said. */
  lemma {:induction false} TextsAreCopies(cabins: map<string, CabinProc>, emitted: seq<Emission>, cab: string)
    requires cab in cabins
    requires forall i :: 0 <= i < |emitted| ==> Sourced(cabins, emitted[i])
    ensures var ns, texts, copies := FromCabin(emitted, cab), TextsFrom(emitted, cab), Copies(cabins[cab].broadcasts);
            && |texts| == |ns|
            && forall i :: 0 <= i < |ns| ==> ns[i] < |copies| && texts[i] == TextMsg(copies[ns[i]])
  {
    if emitted == [] {
    } else {
      var n := |emitted| - 1;
      assert Sourced(cabins, emitted[n]);
      TextsAreCopies(cabins, emitted[..n], cab);
      assert forall i :: 0 <= i < n ==> emitted[..n][i] == emitted[i];
    }
  }

  /** SENDs delivered to one client bear one name. */
  lemma DeliveredBearName(d: Deck, p: CabinProc, c: string, ns: seq<nat>)
    requires Known(d, p) && Ledgered(p) && PositionsOf(ns, p.settled, c)
    ensures forall i, j :: 0 <= i < |ns| && 0 <= j < |ns| ==>
              Copies(p.broadcasts)[ns[i]].username == Copies(p.broadcasts)[ns[j]].username
  {
    forall i | 0 <= i < |ns|
      ensures c in d.clients && Copies(p.broadcasts)[ns[i]].username == d.clients[c].username
    {
      assert p.settled[ns[i]].client == c;
    }
  }

  lemma NumbersIncrease(d: Deck, p: CabinProc, c: string)
    requires Known(d, p) && Ledgered(p) && Forwarded(p)
    ensures var numbers := TextNumbers(p, c);
            && (forall i :: 0 <= i < |numbers| ==> numbers[i] < |p.notices|)
            && (forall i, j :: 0 <= i < j < |numbers| ==> numbers[i] < numbers[j])
  {
    var ns := DeliveredTo(p.settled, c);
    DeliveredToIsSorted(p.settled, c);
    DeliveredBearName(d, p, c, ns);
    OrdersDistinct(p);
    forall i | 0 <= i < |ns|
      ensures TextNumbers(p, c)[i] < |p.notices|
    {
      CopyBelongs(p.broadcasts, ns[i]);
    }
    forall i, j | 0 <= i < j < |ns|
      ensures TextNumbers(p, c)[i] < TextNumbers(p, c)[j]
    {
      CopiesIncrease(p.broadcasts, ns[i], ns[j]);
    }
  }

  /** The texts sent to a client carry the notices of their numbers. */
  lemma TextsMatchNotices(p: CabinProc, c: string, texts: seq<Frames>)
    requires Ledgered(p) && Forwarded(p)
    requires var ns, copies := DeliveredTo(p.settled, c), Copies(p.broadcasts);
             && |texts| == |ns|
             && forall i :: 0 <= i < |ns| ==> ns[i] < |copies| && texts[i] == TextMsg(copies[ns[i]])
    ensures forall i :: 0 <= i < |texts| ==>
              && TextNumbers(p, c)[i] < |p.notices|
              && texts[i] == ["CABIN", "TEXT", p.notices[TextNumbers(p, c)[i]].sender,
                              p.notices[TextNumbers(p, c)[i]].text]
  {
    var ns := DeliveredTo(p.settled, c);
    forall i | 0 <= i < |texts|
      ensures TextNumbers(p, c)[i] < |p.notices|
      ensures texts[i] == ["CABIN", "TEXT", p.notices[TextNumbers(p, c)[i]].sender,
                           p.notices[TextNumbers(p, c)[i]].text]
    {
      CopyCarries(p, ns[i]);
    }
  }

  /** In every reachable state, the texts of a cabin that were sent to a client are a subsequence, without repeats,
      of the texts the deck forwarded to the cabin. */
  lemma CommonOrder(w: World, cab: string, c: string)
    requires Reachable(w) && cab in w.cabins && c in w.clients
    ensures Numbers(TextNumbers(w.cabins[cab], c), w.cabins[cab], TextsFrom(w.clients[c].emitted, cab))
  {
    var p := w.cabins[cab];
    hide Reachable, Forwarded, Ledgered, Known, Copies, TextMsg, TextNumbers, Sourced, DeckInv, Numbers,
      DeliveredTo, FromCabin, TextsFrom;
    ReachableCabin(w, cab);
    ReachableDeliveries(w, cab, c);
    TextsAreCopies(w.cabins, w.clients[c].emitted, cab);
    if cab in w.deck.cabins {
      NumbersIncrease(w.deck, p, c);
      TextsMatchNotices(p, c, TextsFrom(w.clients[c].emitted, cab));
      NumbersFrom(p, c, TextsFrom(w.clients[c].emitted, cab));
    } else {
      NoNumbers(p, c, TextsFrom(w.clients[c].emitted, cab));
    }
  }

  lemma NumbersFrom(p: CabinProc, c: string, texts: seq<Frames>)
    requires |texts| == |TextNumbers(p, c)|
    requires forall i :: 0 <= i < |texts| ==>
               && TextNumbers(p, c)[i] < |p.notices|
               && texts[i] == ["CABIN", "TEXT", p.notices[TextNumbers(p, c)[i]].sender,
                               p.notices[TextNumbers(p, c)[i]].text]
    requires forall i, j :: 0 <= i < j < |texts| ==> TextNumbers(p, c)[i] < TextNumbers(p, c)[j]
    ensures Numbers(TextNumbers(p, c), p, texts)
  {
    hide TextNumbers;
  }

  /** A cabin without a history has sent nobody anything. */
  lemma NoNumbers(p: CabinProc, c: string, texts: seq<Frames>)
    requires NoHistory(p) && |texts| == |DeliveredTo(p.settled, c)|
    ensures Numbers(TextNumbers(p, c), p, texts)
  {
  }

  lemma ReachableDeliveries(w: World, cab: string, c: string)
    requires Reachable(w) && cab in w.cabins && c in w.clients
    ensures AllSourced(w.cabins, w.clients[c]) && Agree(cab, w.cabins[cab], c, w.clients[c])
  {
    hide Reachable, CabinsOk, ClientsOk, Books, AllSourced, Agree;
    ReachableInv(w);
  }

  /** So any two clients that get two texts of a cabin get them in the same order. */
  lemma SharedOrder(w: World, cab: string, b: string, c: string, i: nat, j: nat, k: nat, l: nat)
    requires Reachable(w) && cab in w.cabins && b in w.clients && c in w.clients
    requires var bs, cs := TextNumbers(w.cabins[cab], b), TextNumbers(w.cabins[cab], c);
             && i < |bs| && j < |bs| && k < |cs| && l < |cs|
             && bs[i] == cs[k] && bs[j] == cs[l]
    ensures TextsFrom(w.clients[b].emitted, cab) != [] && TextsFrom(w.clients[c].emitted, cab) != []
    ensures i < j <==> k < l
  {
    hide Reachable, TextNumbers, TextsFrom;
    CommonOrder(w, cab, b);
    CommonOrder(w, cab, c);
  }

  // ----- Where a delivered text comes from -----

  /** Whenever the deck sends a client a cabin's text, the client is recorded in that cabin, and the text was forwarded
      to the cabin by an earlier step of the run, from a client that was then online and recorded in it. */
  lemma DeliverySafety(serverId: string, actions: seq<Action>, a: Action, c: string)
    requires Runs(Init(serverId), actions)
    requires var w := After(Init(serverId), actions);
             Enabled(w, a) && c in w.clients && c in Next(w, a).clients && TextsSent(w, Next(w, a), c)
    ensures var w := After(Init(serverId), actions);
            && a.DeckCabin? && a.cab in w.cabins && c in w.deck.clients && w.deck.clients[c].cabin == a.cab
            && exists k, i :: DeliversNotice(w, Next(w, a), a.cab, c, k)
                           && ForwardedAt(Init(serverId), actions, a.cab, k, i)
  {
    var w := After(Init(serverId), actions);
    hide Runs, After, Next, Enabled, TextsSent, DeliversNotice, ForwardedAt;
    InitHolds(serverId);
    RunKeeps(Init(serverId), actions);
    OnlySendsDeliver(w, a, c);
    var k := SendDelivers(w, a.cab, c);
    EveryTextWasForwarded(Init(serverId), actions, a.cab, k);
    var i :| ForwardedAt(Init(serverId), actions, a.cab, k, i);
  }

  /** Without shared names, the client's name was moreover among those the text was addressed to. */
  lemma DeliveryAudience(w: World, a: Action, c: string, k: nat)
    requires ReachableUnshared(w) && a.DeckCabin? && Enabled(w, a) && a.cab in w.deck.cabins
    requires DeliversNotice(w, Next(w, a), a.cab, c, k)
    ensures w.clients[c].username in w.cabins[a.cab].notices[k].audience
  {
    hide ReachableUnshared, Enabled, Next, Known, Roster, Stable, Ledgered, Forwarded, Copies;
    ReachableInStepCabin(w, a.cab);
    CopyAddressed(w.cabins[a.cab], |w.cabins[a.cab].settled|);
  }

  /** A message with an origin is new among those sent to the client. */
  ghost predicate TextsSent(w: World, v: World, c: string)
    requires c in w.clients && c in v.clients
  {
    exists i :: |w.clients[c].emitted| <= i < |v.clients[c].emitted| && v.clients[c].emitted[i].origin.Some?
  }

  /** The client is sent one message, the copy for its name of the k-th text of the cabin. */
  ghost predicate DeliversNotice(w: World, v: World, cab: string, c: string, k: nat) {
    && cab in w.cabins && c in w.clients && c in v.clients
    && var p := w.cabins[cab];
       && |p.settled| < |Copies(p.broadcasts)|
       && Copies(p.broadcasts)[|p.settled|].index == k < |p.notices|
       && Copies(p.broadcasts)[|p.settled|].username == w.clients[c].username
       && |v.clients[c].emitted| == |w.clients[c].emitted| + 1
       && v.clients[c].emitted[|w.clients[c].emitted|].frames
          == ["CABIN", "TEXT", p.notices[k].sender, p.notices[k].text]
  }

  lemma OnlySendsDeliver(w: World, a: Action, c: string)
    requires Inv(w) && Enabled(w, a) && c in w.clients && c in Next(w, a).clients && TextsSent(w, Next(w, a), c)
    ensures a.DeckCabin? && a.cab in w.deck.cabins
  {
    hide OnServerInput, Routed, CabinAfterCrew, Enter, OrderOf, UsersAfter, SendAll, Accepts, LineMsg, RunsAfter,
      CrewRequest, ToClient, AfterSend, ClientsOk, Deliveries, DeckInv;
    if a.DeckCabin? && a.cab !in w.deck.cabins {
      assert CabinOk(w.deck, w.awaiting, a.cab, w.cabins[a.cab]);
      hide CabinOk, CabinsOk, AfterCabin;
      if w.cabins[a.cab].outbox == [REGISTRATION] {
        RegistrationStep(w, a.cab);
      } else {
        LateInfoStep(w, a.cab);
      }
    }
  }

  /** What a handled SEND sends to a client. */
  lemma ArrivalOfSend(w: World, v: World, cab: string, copy: Copy, c: string)
    requires Books(w) && copy.username in w.deck.crewIds && c in w.clients
    requires w.deck.clients[w.deck.crewIds[copy.username]].serverId == w.serverId
    requires cab in w.cabins && w.cabins[cab].outbox != [] && Passes(w, v, cab, copy)
    requires TextsSent(w, v, c)
    ensures c == w.deck.crewIds[copy.username] && w.deck.clients[c].cabin == cab
    ensures v.clients[c].emitted
         == w.clients[c].emitted + [Emission(["CABIN", "TEXT", copy.sender, copy.text],
                                             Some(Origin(cab, |w.cabins[cab].settled|)))]
  {
    assert Directory(w.deck);
    hide *;
    DeliveryReaches(w.deck, w.serverId, cab, copy.username, copy.sender, copy.text, c);
    EmittedBySend(w, v, cab, copy, c);
    var r := PassOn(w.deck, cab, Send("TEXT", copy.username, copy.sender, [copy.text]));
    TextsSentArrived(w, v, c, ToClient(w.serverId, r.toServer, c), Some(Origin(cab, |w.cabins[cab].settled|)));
    AdmittedIsRecorded(w.deck, cab, copy.username);
  }

  lemma TextsSentArrived(w: World, v: World, c: string, arrivals: seq<Frames>, origin: Option<Origin>)
    requires c in w.clients && c in v.clients && TextsSent(w, v, c) && |arrivals| <= 1
    requires v.clients[c].emitted == w.clients[c].emitted + Emissions(arrivals, origin)
    ensures |arrivals| == 1 && v.clients[c].emitted == w.clients[c].emitted + [Emission(arrivals[0], origin)]
  {
  }

  lemma AdmittedIsRecorded(d: Deck, cab: string, username: string)
    requires Admits(d, cab, username) && username in d.crewIds && d.crewIds[username] in d.clients
    ensures d.clients[d.crewIds[username]].cabin == cab
  {
  }

  lemma EmittedBySend(w: World, v: World, cab: string, copy: Copy, c: string)
    requires cab in w.cabins && w.cabins[cab].outbox != [] && Passes(w, v, cab, copy) && c in w.clients
    ensures c in v.clients
    ensures var r := PassOn(w.deck, cab, Send("TEXT", copy.username, copy.sender, [copy.text]));
            v.clients[c].emitted
            == w.clients[c].emitted
               + Emissions(ToClient(w.serverId, r.toServer, c), Some(Origin(cab, |w.cabins[cab].settled|)))
  {
    hide PassOn, ToClient, Routed, SettledBy, Copies, Emissions;
  }

  lemma CopyDelivered(w: World, v: World, cab: string, copy: Copy, c: string)
    requires Books(w) && ClientsOk(w.deck, w.serverId, w.up, w.down, w.clients)
    requires cab in w.cabins && w.cabins[cab].outbox != [] && Passes(w, v, cab, copy)
    requires c in w.clients && c in v.clients && TextsSent(w, v, c)
    requires AllCarry(w.cabins[cab].broadcasts, w.cabins[cab].notices)
    ensures c in w.deck.clients && w.deck.clients[c].cabin == cab
    ensures DeliversNotice(w, v, cab, c, copy.index)
  {
    hide *;
    CopyNoticed(w, v, cab, copy);
    AddresseeExists(w, copy.username);
    ArrivalOfSend(w, v, cab, copy, c);
    RecordedName(w, c);
    CopyIsNotice(w, v, cab, copy, c);
  }

  lemma CopyNoticed(w: World, v: World, cab: string, copy: Copy)
    requires cab in w.cabins && w.cabins[cab].outbox != [] && Passes(w, v, cab, copy)
    requires AllCarry(w.cabins[cab].broadcasts, w.cabins[cab].notices)
    ensures copy.username in w.deck.crewIds
    ensures var p := w.cabins[cab];
            && |p.settled| < |Copies(p.broadcasts)| && copy == Copies(p.broadcasts)[|p.settled|]
            && copy.index < |p.notices|
            && copy.sender == p.notices[copy.index].sender && copy.text == p.notices[copy.index].text
  {
    hide PassOn, ToClient, Routed, SettledBy, Copies;
    CopyCarries(w.cabins[cab], |w.cabins[cab].settled|);
  }

  lemma CopyIsNotice(w: World, v: World, cab: string, copy: Copy, c: string)
    requires cab in w.cabins && c in w.clients && c in v.clients
    requires var p := w.cabins[cab];
             && |p.settled| < |Copies(p.broadcasts)| && copy == Copies(p.broadcasts)[|p.settled|]
             && copy.index < |p.notices|
             && copy.sender == p.notices[copy.index].sender && copy.text == p.notices[copy.index].text
             && v.clients[c].emitted
                == w.clients[c].emitted + [Emission(["CABIN", "TEXT", copy.sender, copy.text],
                                                    Some(Origin(cab, |p.settled|)))]
    requires copy.username == w.clients[c].username
    ensures DeliversNotice(w, v, cab, c, copy.index)
  {
    hide Copies;
  }

  lemma RecordedName(w: World, c: string)
    requires ClientsOk(w.deck, w.serverId, w.up, w.down, w.clients) && c in w.clients && c in w.deck.clients
    ensures w.deck.clients[c].username == w.clients[c].username
  {
    hide Disciplined, Upstream, Downstream, Greeted;
    assert ClientOk(w.deck, w.serverId, w.up, w.down, c, w.clients[c]);
  }

  lemma SendDelivers(w: World, cab: string, c: string) returns (k: nat)
    requires Inv(w) && Enabled(w, DeckCabin(cab)) && cab in w.deck.cabins
    requires c in w.clients && c in Next(w, DeckCabin(cab)).clients && TextsSent(w, Next(w, DeckCabin(cab)), c)
    ensures cab in w.cabins && k < |w.cabins[cab].notices|
    ensures c in w.deck.clients && w.deck.clients[c].cabin == cab
    ensures DeliversNotice(w, Next(w, DeckCabin(cab)), cab, c, k)
  {
    hide AfterCabin, DeckInv, CabinsOk, ClientsOk, Deliveries, Addressed, TextsSent, DeliversNotice, Passes, SettledBy,
      Copies, AllCarry;
    var copy := SendStep(w, cab);
    RegisteredCarries(w, cab);
    CopyDelivered(w, AfterCabin(w, cab), cab, copy, c);
    CopyNoticed(w, AfterCabin(w, cab), cab, copy);
    k := copy.index;
  }

  lemma RegisteredCarries(w: World, cab: string)
    requires Inv(w) && cab in w.cabins && cab in w.deck.cabins
    ensures AllCarry(w.cabins[cab].broadcasts, w.cabins[cab].notices)
  {
    hide Inv, Ledgered, Known;
    InvParts(w, cab);
  }
}
