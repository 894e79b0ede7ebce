/** Every step keeps the invariant of the system. */
module Steps {
  import opened CabinSteps
  import opened ClientSteps
  import opened Deck
  import opened Defines
  import opened Invariant
  import opened Ledger
  import opened Lobby
  import opened Membership
  import opened Relay
  import opened World
  import opened Wrappers

  // ----- Replacing one process -----

  lemma ReplaceCabin(d: Deck, awaiting: Option<string>, cabins: map<string, CabinProc>, cab: string, p: CabinProc)
    requires CabinsOk(d, awaiting, cabins) && CabinOk(d, awaiting, cab, p)
    ensures CabinsOk(d, awaiting, cabins[cab := p])
  {
  }

  lemma ReplaceClient(d: Deck, serverId: string, up: seq<Frames>, down: seq<Frames>,
                      clients: map<string, ClientProc>, c: string, p: ClientProc)
    requires ClientsOk(d, serverId, up, down, clients) && ClientOk(d, serverId, up, down, c, p)
    ensures ClientsOk(d, serverId, up, down, clients[c := p])
  {
  }

  /** What a later state of a cabin keeps for the deliveries that came from it. */
  ghost predicate Grows(p: CabinProc, q: CabinProc) {
    && Copies(p.broadcasts) <= Copies(q.broadcasts)
    && |p.settled| <= |q.settled| <= |Copies(q.broadcasts)|
  }

  ghost predicate AllGrow(before: map<string, CabinProc>, after: map<string, CabinProc>) {
    before.Keys <= after.Keys && forall cab :: cab in before ==> Grows(before[cab], after[cab])
  }

  lemma SourcedStays(before: map<string, CabinProc>, after: map<string, CabinProc>, p: ClientProc)
    requires AllSourced(before, p) && AllGrow(before, after)
    ensures AllSourced(after, p)
  {
    forall i | 0 <= i < |p.emitted|
      ensures Sourced(after, p.emitted[i])
    {
      assert Sourced(before, p.emitted[i]);
    }
  }

  lemma SettledWithinCopies(d: Deck, awaiting: Option<string>, cabins: map<string, CabinProc>)
    requires CabinsOk(d, awaiting, cabins)
    ensures AllGrow(cabins, cabins)
  {
    forall cab | cab in cabins
      ensures Grows(cabins[cab], cabins[cab])
    {
      assert CabinOk(d, awaiting, cab, cabins[cab]);
    }
  }

  /** Cabins that settle nothing new keep the deliveries, whatever else they do. */
  lemma DeliveriesWhenUnsettled(before: map<string, CabinProc>, after: map<string, CabinProc>,
                                clients: map<string, ClientProc>)
    requires Deliveries(before, clients) && AllGrow(before, after)
    requires forall cab :: cab in after ==> cab in before && after[cab].settled == before[cab].settled
    ensures Deliveries(after, clients)
  {
    forall c | c in clients
      ensures AllSourced(after, clients[c])
    {
      SourcedStays(before, after, clients[c]);
    }
    forall cab, c | cab in after && c in clients
      ensures Agree(cab, after[cab], c, clients[c])
    {
      assert Agree(cab, before[cab], c, clients[c]);
    }
  }

  /** Clients that are sent nothing new keep the deliveries. */
  lemma DeliveriesWhenUnsent(cabins: map<string, CabinProc>, before: map<string, ClientProc>,
                             after: map<string, ClientProc>)
    requires Deliveries(cabins, before)
    requires forall c :: c in after ==> c in before && after[c].emitted == before[c].emitted
    ensures Deliveries(cabins, after)
  {
    forall cab, c | cab in cabins && c in after
      ensures Agree(cab, cabins[cab], c, after[c])
    {
      assert Agree(cab, cabins[cab], c, before[c]);
    }
    forall c | c in after
      ensures AllSourced(cabins, after[c])
    {
      assert AllSourced(cabins, before[c]);
    }
  }

  // ----- Newcomers -----

  lemma {:induction false} NothingFrom(emitted: seq<Emission>, cab: string)
    requires forall i :: 0 <= i < |emitted| && emitted[i].origin.Some? ==> emitted[i].origin.value.cabin != cab
    ensures FromCabin(emitted, cab) == []
  {
    if emitted == [] {
    } else {
      NothingFrom(emitted[..|emitted| - 1], cab);
    }
  }

  lemma {:induction false} NothingTo(settled: seq<Settled>, c: string)
    requires forall i :: 0 <= i < |settled| ==> settled[i].client != c
    ensures DeliveredTo(settled, c) == []
  {
    if settled == [] {
    } else {
      NothingTo(settled[..|settled| - 1], c);
    }
  }

  lemma {:induction false} RoutedElsewhere(messages: seq<Frames>, c: string)
    requires forall i :: 0 <= i < |messages| ==> messages[i] != [] && messages[i][0] != c
    ensures Routed(messages, c) == []
    decreases |messages|
  {
    if messages == [] {
    } else {
      RoutedElsewhere(messages[1..], c);
    }
  }

  lemma NewCabinDeliveries(cabins: map<string, CabinProc>, clients: map<string, ClientProc>, cab: string, p: CabinProc)
    requires Deliveries(cabins, clients) && AllGrow(cabins, cabins)
    requires cab !in cabins && p.settled == []
    ensures Deliveries(cabins[cab := p], clients)
  {
    forall c | c in clients
      ensures AllSourced(cabins[cab := p], clients[c]) && Agree(cab, p, c, clients[c])
    {
      SourcedStays(cabins, cabins[cab := p], clients[c]);
      forall i | 0 <= i < |clients[c].emitted| && clients[c].emitted[i].origin.Some?
        ensures clients[c].emitted[i].origin.value.cabin != cab
      {
        assert Sourced(cabins, clients[c].emitted[i]);
      }
      NothingFrom(clients[c].emitted, cab);
    }
    assert forall k, c :: k in cabins && c in clients ==> Agree(k, cabins[k], c, clients[c]);
  }

  lemma SpawnCabinKeeps(w: World, cab: string, title: string, description: string)
    requires Inv(w) && Enabled(w, SpawnCabin(cab, title, description))
    ensures Inv(Next(w, SpawnCabin(cab, title, description)))
  {
    var p := NewCabin(title, description);
    ReplaceCabin(w.deck, w.awaiting, w.cabins, cab, p);
    SettledWithinCopies(w.deck, w.awaiting, w.cabins);
    NewCabinDeliveries(w.cabins, w.clients, cab, p);
  }

  lemma NewClientDeliveries(w: World, c: string, p: ClientProc)
    requires CabinsOk(w.deck, w.awaiting, w.cabins) && Deliveries(w.cabins, w.clients)
    requires c !in w.clients && w.deck.clients.Keys <= w.clients.Keys && p.emitted == []
    ensures Deliveries(w.cabins, w.clients[c := p])
  {
    forall cab | cab in w.cabins
      ensures Agree(cab, w.cabins[cab], c, p)
    {
      assert CabinOk(w.deck, w.awaiting, cab, w.cabins[cab]);
      NothingTo(w.cabins[cab].settled, c);
    }
    assert forall cab, k :: cab in w.cabins && k in w.clients ==> Agree(cab, w.cabins[cab], k, w.clients[k]);
    assert forall k :: k in w.clients ==> AllSourced(w.cabins, w.clients[k]);
  }

  lemma SpawnClientKeeps(w: World, c: string, username: string, password: string)
    requires Inv(w) && Enabled(w, SpawnClient(c, username, password))
    ensures Inv(Next(w, SpawnClient(c, username, password)))
  {
    var p := NewClient(username, password);
    NewClientOk(w, c, username, password);
    ReplaceClient(w.deck, w.serverId, w.up, w.down, w.clients, c, p);
    NewClientDeliveries(w, c, p);
  }

  /** No message is under way from or to a client that does not exist yet. */
  lemma NewClientOk(w: World, c: string, username: string, password: string)
    requires Books(w) && c !in w.clients
    ensures ClientOk(w.deck, w.serverId, w.up, w.down, c, NewClient(username, password))
  {
    RequestOfLogin(w.serverId, c, username, password);
    RoutedElsewhere(w.up, c);
    RoutedElsewhere(w.down, c);
  }

  // ----- Steps of cabins, clients and the relay -----

  lemma CabinNextGrows(d: Deck, awaiting: Option<string>, cab: string, p: CabinProc, order: seq<string>)
    requires CabinOk(d, awaiting, cab, p) && p.inbox != [] && Enumerates(order, p.users)
    ensures Grows(p, CabinNext(p, order)) && CabinNext(p, order).settled == p.settled
  {
    if cab in d.cabins && OrderOf(p.inbox[0]).Tell? {
      BroadcastLedger(p, order);
    }
  }

  lemma CabinTurnKeeps(w: World, cab: string, order: seq<string>)
    requires Inv(w) && Enabled(w, CabinTurn(cab, order))
    ensures Inv(Next(w, CabinTurn(cab, order)))
  {
    hide ClientOk, CabinOk, AllSourced, Agree;
    var p := w.cabins[cab];
    var q := CabinNext(p, order);
    assert CabinOk(w.deck, w.awaiting, cab, p);
    CabinTurnOk(w.deck, w.awaiting, cab, p, order);
    CabinNextGrows(w.deck, w.awaiting, cab, p, order);
    ReplaceCabin(w.deck, w.awaiting, w.cabins, cab, q);
    SettledWithinCopies(w.deck, w.awaiting, w.cabins);
    DeliveriesWhenUnsettled(w.cabins, w.cabins[cab := q], w.clients);
  }

  lemma UserLineKeeps(w: World, c: string, line: string, accepted: bool)
    requires Inv(w) && Enabled(w, UserLine(c, line, accepted))
    ensures Inv(Next(w, UserLine(c, line, accepted)))
  {
    hide ClientOk, CabinOk, AllSourced, Agree;
    var p := w.clients[c];
    var q := ClientSays(p, line, accepted);
    assert ClientOk(w.deck, w.serverId, w.up, w.down, c, p);
    ClientSaysOk(w.deck, w.serverId, w.up, w.down, c, p, line, accepted);
    ReplaceClient(w.deck, w.serverId, w.up, w.down, w.clients, c, q);
    DeliveriesWhenUnsent(w.cabins, w.clients, w.clients[c := q]);
  }

  lemma ClientTurnKeeps(w: World, c: string)
    requires Inv(w) && Enabled(w, ClientTurn(c))
    ensures Inv(Next(w, ClientTurn(c)))
  {
    hide ClientOk, CabinOk, AllSourced, Agree;
    var p := w.clients[c];
    var q := ClientNext(p);
    assert ClientOk(w.deck, w.serverId, w.up, w.down, c, p);
    ClientTurnOk(w.deck, w.serverId, w.up, w.down, c, p);
    ReplaceClient(w.deck, w.serverId, w.up, w.down, w.clients, c, q);
    DeliveriesWhenUnsent(w.cabins, w.clients, w.clients[c := q]);
  }

  lemma RelayUpKeeps(w: World, c: string)
    requires Inv(w) && Enabled(w, RelayUp(c))
    ensures Inv(Next(w, RelayUp(c)))
  {
    hide ClientOk, CabinOk, AllSourced, Agree;
    var v := Next(w, RelayUp(c));
    var m := w.clients[c].outbox[0];
    forall k | k in v.clients
      ensures ClientOk(v.deck, v.serverId, v.up, v.down, k, v.clients[k])
    {
      RelayUpOk(w.deck, w.serverId, w.up, w.down, k, w.clients[k], c, m);
    }
    DeliveriesWhenUnsent(w.cabins, w.clients, v.clients);
  }

  lemma RelayDownKeeps(w: World)
    requires Inv(w) && Enabled(w, RelayDown)
    ensures Inv(Next(w, RelayDown))
  {
    hide ClientOk, CabinOk, AllSourced, Agree;
    var v := Next(w, RelayDown);
    forall k | k in v.clients
      ensures ClientOk(v.deck, v.serverId, v.up, v.down, k, v.clients[k])
    {
      RelayDownOk(w.deck, w.serverId, w.up, w.down, k, w.clients[k]);
    }
    DeliveriesWhenUnsent(w.cabins, w.clients, v.clients);
  }

  // ----- The deck handles a crew message -----

  /** The deck's dispatch, for a message from the relay. */
  lemma ServerInputIsRequest(w: World, order: seq<string>)
    requires Books(w) && w.up != [] && Enumerates(order, w.deck.cabins.Keys)
    requires !CrewRequest(DeckInput(w, w.up[0])).Malformed?
    ensures var input := DeckInput(w, w.up[0]);
            && |input| >= 2 && input[0] == w.serverId && input[1] == w.up[0][0] && input[1] in w.clients
            && OnServerInput(w.deck, input, order)
            == OnRequest(w.deck, w.serverId, input[1], CrewRequest(input), order)
  {
    assert w.up[0] != [] && w.up[0][0] in w.clients;
  }

  /** The client, the request, and that the deck can serve it. */
  lemma CrewStep(w: World, order: seq<string>)
    requires Inv(w) && w.up != [] && Enumerates(order, w.deck.cabins.Keys)
    ensures w.up[0] != [] && w.up[0][0] in w.clients
    ensures var c := w.up[0][0];
            var request := CrewRequest(DeckInput(w, w.up[0]));
            var r := OnRequest(w.deck, w.serverId, c, request, order);
            && Serviceable(w.deck, c)
            && OnServerInput(w.deck, DeckInput(w, w.up[0]), order) == r
            && Affects(w.deck, r, w.serverId, c, request)
            && DeckInv(r.deck) && Extends(w.deck, r.deck)
            && r.deck.cabins.Keys == w.deck.cabins.Keys
  {
    assert w.up[0] != [] && w.up[0][0] in w.clients;
    var c := w.up[0][0];
    assert ClientOk(w.deck, w.serverId, w.up, w.down, c, w.clients[c]);
    HeadMessage(w.deck, w.serverId, w.up, c, w.clients[c]);
    ServerInputIsRequest(w, order);
    var request := CrewRequest(DeckInput(w, w.up[0]));
    OnRequestSound(w.deck, w.serverId, c, request, order);
    OnRequestAffects(w.deck, w.serverId, c, request, order);
    OnRequestKeepsCabins(w.deck, w.serverId, c, request, order);
  }

  lemma DeckAfterCrew(w: World, order: seq<string>)
    requires Enabled(w, DeckCrew(order)) && w.up != [] && Enumerates(order, w.deck.cabins.Keys)
    ensures Next(w, DeckCrew(order)).deck == OnServerInput(w.deck, DeckInput(w, w.up[0]), order).deck
  {
    hide OnServerInput, CabinAfterCrew, ClientAfterCrew, Routed, CrewRequest, Enumerates;
  }

  lemma DeckOfInv(w: World)
    requires Inv(w)
    ensures DeckInv(w.deck)
  {
    hide DeckInv, CabinsOk, ClientsOk, Deliveries;
  }

  lemma GrowsAfterCrew(d: Deck, awaiting: Option<string>, cab: string, p: CabinProc, r: Reaction, c: string,
                       request: Request)
    requires CabinOk(d, awaiting, cab, p)
    ensures Grows(p, CabinAfterCrew(p, cab, d, r, c, request))
  {
  }

  lemma CrewKeepsCabins(w: World, order: seq<string>)
    requires Inv(w) && Enabled(w, DeckCrew(order))
    ensures var v := Next(w, DeckCrew(order));
            && CabinsOk(v.deck, v.awaiting, v.cabins)
            && AllGrow(w.cabins, v.cabins)
  {
    hide ClientsOk, CabinOk, Deliveries, OnRequest, OnServerInput, Grows, CabinAfterCrew, ClientAfterCrew, CrewRequest,
      Affects, Extends, Routed, Directory, Headcount, Defaulted;
    var v := Next(w, DeckCrew(order));
    var c := w.up[0][0];
    var request := CrewRequest(DeckInput(w, w.up[0]));
    var r := OnRequest(w.deck, w.serverId, c, request, order);
    CrewStep(w, order);
    forall cab | cab in v.cabins
      ensures CabinOk(v.deck, v.awaiting, cab, v.cabins[cab])
      ensures Grows(w.cabins[cab], v.cabins[cab])
    {
      assert CabinOk(w.deck, w.awaiting, cab, w.cabins[cab]);
      CabinAfterCrewOk(w.deck, w.awaiting, cab, w.cabins[cab], w.serverId, c, request, order);
      GrowsAfterCrew(w.deck, w.awaiting, cab, w.cabins[cab], r, c, request);
    }
  }

  lemma CrewKeepsClients(w: World, order: seq<string>)
    requires Inv(w) && Enabled(w, DeckCrew(order))
    ensures var v := Next(w, DeckCrew(order)); ClientsOk(v.deck, v.serverId, v.up, v.down, v.clients)
  {
    hide ClientOk, CabinOk, Deliveries, OnRequest, OnServerInput;
    var v := Next(w, DeckCrew(order));
    var c := w.up[0][0];
    var request := CrewRequest(DeckInput(w, w.up[0]));
    var r := OnRequest(w.deck, w.serverId, c, request, order);
    CrewStep(w, order);
    forall k | k in v.clients
      ensures ClientOk(v.deck, v.serverId, v.up, v.down, k, v.clients[k])
    {
      if k == c {
        SenderAfterCrewOk(w.deck, w.serverId, w.up, w.down, c, w.clients[c], r, request);
      } else {
        OtherAfterCrewOk(w.deck, w.serverId, w.up, w.down, c, k, w.clients[k], r, request);
      }
    }
  }

  lemma RepliesAreNoDeliveries(emitted: seq<Emission>, replies: seq<Frames>, cab: string)
    requires |replies| <= 1
    ensures FromCabin(emitted + Emissions(replies, None), cab) == FromCabin(emitted, cab)
  {
    if replies == [] {
      assert emitted + Emissions(replies, None) == emitted;
    } else {
      assert Emissions(replies, None) == [Emission(replies[0], None)];
      FromCabinOneMore(emitted, Emission(replies[0], None), cab);
    }
  }

  /** Replies leave a client's deliveries as they are. */
  lemma DeliveriesAfterReplies(before: map<string, CabinProc>, after: map<string, CabinProc>, k: string,
                               p: ClientProc, q: ClientProc, replies: seq<Frames>)
    requires AllSourced(before, p) && AllGrow(before, after) && before.Keys == after.Keys
    requires forall cab :: cab in before ==>
               Agree(cab, before[cab], k, p) && after[cab].settled == before[cab].settled
    requires |replies| <= 1 && q.emitted == p.emitted + Emissions(replies, None)
    ensures AllSourced(after, q)
    ensures forall cab :: cab in after ==> Agree(cab, after[cab], k, q)
  {
    SourcedStays(before, after, p);
    forall i | 0 <= i < |q.emitted|
      ensures Sourced(after, q.emitted[i])
    {
      if i < |p.emitted| {
        assert Sourced(after, p.emitted[i]);
      }
    }
    forall cab | cab in after
      ensures Agree(cab, after[cab], k, q)
    {
      RepliesAreNoDeliveries(p.emitted, replies, cab);
    }
  }

  lemma CrewKeepsDeliveries(w: World, order: seq<string>)
    requires Inv(w) && Enabled(w, DeckCrew(order))
    ensures var v := Next(w, DeckCrew(order)); Deliveries(v.cabins, v.clients)
  {
    hide ClientOk, CabinOk, AllSourced, Agree, OnRequest, OnServerInput, AllGrow, DeckInv, Extends;
    CrewStep(w, order);
    CrewKeepsCabins(w, order);
    var v := Next(w, DeckCrew(order));
    var c := w.up[0][0];
    var r := OnServerInput(w.deck, DeckInput(w, w.up[0]), order);
    forall k | k in v.clients
      ensures AllSourced(v.cabins, v.clients[k])
      ensures forall cab :: cab in v.cabins ==> Agree(cab, v.cabins[cab], k, v.clients[k])
    {
      var replies := ToClient(w.serverId, r.toServer, k);
      ReplyReaches(r.toServer, w.serverId, c, k);
      DeliveriesAfterReplies(w.cabins, v.cabins, k, w.clients[k], v.clients[k], replies);
    }
  }

  lemma RoutedAddressed(messages: seq<Frames>, s: string, c: string, clients: set<string>)
    requires OneReply(messages, s, c) && c in clients
    ensures Addressed(Routed(messages, s), clients)
  {
    if messages != [] {
      assert messages == [messages[0]];
      RoutedOne(messages[0], s);
    }
  }

  lemma CrewKeepsBooks(w: World, order: seq<string>)
    requires Inv(w) && Enabled(w, DeckCrew(order))
    ensures Books(Next(w, DeckCrew(order)))
  {
    hide ClientsOk, CabinsOk, Deliveries, OnRequest, OnServerInput, DeckInv, CabinAfterCrew, ClientAfterCrew, OneReply,
      CrewRequest, Extends, Serviceable, Routed;
    CrewStep(w, order);
    var r := OnServerInput(w.deck, DeckInput(w, w.up[0]), order);
    assert OneReply(r.toServer, w.serverId, w.up[0][0]) && r.deck.clients.Keys <= w.clients.Keys;
    hide Affects;
    RoutedAddressed(r.toServer, w.serverId, w.up[0][0], w.clients.Keys);
  }

  lemma DeckCrewKeeps(w: World, order: seq<string>)
    requires Inv(w) && Enabled(w, DeckCrew(order))
    ensures Inv(Next(w, DeckCrew(order)))
  {
    hide ClientsOk, CabinsOk, Deliveries, AfterCrew, AllGrow, Books;
    CrewKeepsBooks(w, order);
    CrewKeepsCabins(w, order);
    CrewKeepsClients(w, order);
    CrewKeepsDeliveries(w, order);
  }

  // ----- The deck handles a cabin's message -----

  /** Greeting a cabin, as the other cabins see it: nothing. */
  lemma OthersKeptByGreeting(d: Deck, cab: string, other: string, p: CabinProc)
    requires CabinOk(d, None, other, p) && other != cab
    ensures CabinOk(d, Some(cab), other, p)
  {
    hide Registered;
  }

  lemma RegistrationStep(w: World, cab: string)
    requires cab in w.cabins && cab !in w.deck.cabins && w.awaiting.None?
    requires w.cabins[cab].outbox == [REGISTRATION]
    requires CabinOk(w.deck, w.awaiting, cab, w.cabins[cab])
    ensures var p := w.cabins[cab];
            var q := p.(outbox := [], inbox := [SuccessMsg(cab)]);
            && AfterCabin(w, cab) == w.(awaiting := Some(cab), cabins := w.cabins[cab := q])
            && CabinOk(w.deck, Some(cab), cab, q)
  {
    var p := w.cabins[cab];
    var greeting := SuccessMsg(cab);
    ServiceOfRegistration(cab);
    assert p.phase.Registering? && p.inbox == [];
    assert [cab, "SHIP", "SUCCESS", cab] == Prefixed(cab, greeting);
    RoutedPrefixed(cab, greeting, cab);
    assert p.outbox[1..] == [] && p.inbox + [greeting] == [greeting];
  }

  lemma RegistrationKeeps(w: World, cab: string)
    requires Inv(w) && Enabled(w, DeckCabin(cab))
    requires cab !in w.deck.cabins && w.cabins[cab].outbox == [REGISTRATION]
    ensures Inv(Next(w, DeckCabin(cab)))
    ensures Next(w, DeckCabin(cab)).deck == w.deck
  {
    hide CabinOk, AfterCabin, ClientsOk, Routed, AllSourced, Agree, DeckInv, Addressed;
    assert CabinOk(w.deck, w.awaiting, cab, w.cabins[cab]);
    RegistrationStep(w, cab);
    var q := w.cabins[cab].(outbox := [], inbox := [SuccessMsg(cab)]);
    SettledWithinCopies(w.deck, w.awaiting, w.cabins);
    forall other | other in w.cabins && other != cab
      ensures CabinOk(w.deck, Some(cab), other, w.cabins[other])
    {
      OthersKeptByGreeting(w.deck, cab, other, w.cabins[other]);
    }
    DeliveriesWhenUnsettled(w.cabins, w.cabins[cab := q], w.clients);
    assert CabinsOk(w.deck, Some(cab), w.cabins[cab := q]);
    hide CabinsOk, Deliveries;
  }

  /** An info message that comes too late is ignored. */
  lemma LateInfoStep(w: World, cab: string)
    requires cab in w.cabins && cab !in w.deck.cabins && w.awaiting.None?
    requires w.cabins[cab].outbox != [] && w.cabins[cab].outbox != [REGISTRATION]
    requires CabinOk(w.deck, w.awaiting, cab, w.cabins[cab])
    ensures var q := w.cabins[cab].(outbox := []);
            && AfterCabin(w, cab) == w.(cabins := w.cabins[cab := q])
            && CabinOk(w.deck, w.awaiting, cab, q)
  {
    var p := w.cabins[cab];
    assert p.outbox == [InfoMsg(p.title, p.description)];
    LateInfo(cab, p.title, p.description);
    assert p.outbox[1..] == [];
  }

  lemma LateInfoKeeps(w: World, cab: string)
    requires Inv(w) && Enabled(w, DeckCabin(cab))
    requires cab !in w.deck.cabins && w.cabins[cab].outbox != [REGISTRATION]
    ensures Inv(Next(w, DeckCabin(cab)))
    ensures Next(w, DeckCabin(cab)).deck == w.deck
  {
    hide CabinOk, AfterCabin, ClientsOk;
    assert CabinOk(w.deck, w.awaiting, cab, w.cabins[cab]);
    LateInfoStep(w, cab);
    var q := w.cabins[cab].(outbox := []);
    SettledWithinCopies(w.deck, w.awaiting, w.cabins);
    ReplaceCabin(w.deck, w.awaiting, w.cabins, cab, q);
    DeliveriesWhenUnsettled(w.cabins, w.cabins[cab := q], w.clients);
  }

  /** What the deck does with a SEND of a registered cabin: the deck stays as it is, the copy is settled, and the
      addressee is sent the text if its record names the cabin. */
  ghost predicate Passes(w: World, v: World, cab: string, copy: Copy)
    requires cab in w.cabins && w.cabins[cab].outbox != []
  {
    var d := w.deck;
    var p := w.cabins[cab];
    var r := PassOn(d, cab, Send("TEXT", copy.username, copy.sender, [copy.text]));
    && |p.settled| < |Copies(p.broadcasts)| && copy == Copies(p.broadcasts)[|p.settled|]
    && copy.username in d.crewIds
    && v == w.(down := w.down + Routed(r.toServer, w.serverId),
               cabins := w.cabins[cab := SettledBy(d, cab, p, copy.username)],
               clients := map k | k in w.clients :: w.clients[k].(emitted := w.clients[k].emitted
                 + Emissions(ToClient(w.serverId, r.toServer, k), Some(Origin(cab, |p.settled|)))))
  }

  lemma SendStep(w: World, cab: string) returns (copy: Copy)
    requires Inv(w) && cab in w.cabins && w.cabins[cab].outbox != [] && cab in w.deck.cabins
    ensures Passes(w, AfterCabin(w, cab), cab, copy)
    ensures CabinOk(w.deck, w.awaiting, cab, SettledBy(w.deck, cab, w.cabins[cab], copy.username))
  {
    var p := w.cabins[cab];
    assert CabinOk(w.deck, w.awaiting, cab, p);
    copy := PendingSend(p);
    ServiceOfSend(cab, copy.username, copy.sender, copy.text);
    SettleOk(w.deck, cab, p, copy);
    PassOnSound(w.deck, cab, ServiceOf(Prefixed(cab, p.outbox[0])));
  }

  /** The client the name stands for is one of the clients, with the relay's id. */
  lemma AddresseeExists(w: World, username: string)
    requires Books(w) && ClientsOk(w.deck, w.serverId, w.up, w.down, w.clients)
    requires username in w.deck.crewIds
    ensures var c := w.deck.crewIds[username];
            c in w.deck.clients && c in w.clients && w.deck.clients[c].serverId == w.serverId
            && w.deck.clients[c].username == username
  {
    var c := w.deck.crewIds[username];
    assert ClientOk(w.deck, w.serverId, w.up, w.down, c, w.clients[c]);
  }

  lemma SendKeepsClient(w: World, cab: string, copy: Copy, k: string, origin: Option<Origin>)
    requires Books(w) && k in w.clients && ClientOk(w.deck, w.serverId, w.up, w.down, k, w.clients[k])
    requires copy.username in w.deck.crewIds
    requires w.deck.clients[w.deck.crewIds[copy.username]].serverId == w.serverId
    ensures var r := PassOn(w.deck, cab, Send("TEXT", copy.username, copy.sender, [copy.text]));
            ClientOk(w.deck, w.serverId, w.up, w.down + Routed(r.toServer, w.serverId), k,
                     w.clients[k].(emitted := w.clients[k].emitted
                                   + Emissions(ToClient(w.serverId, r.toServer, k), origin)))
  {
    var r := PassOn(w.deck, cab, Send("TEXT", copy.username, copy.sender, [copy.text]));
    DeliveryReaches(w.deck, w.serverId, cab, copy.username, copy.sender, copy.text, k);
    hide ClientOk, PassOn, Routed, Emissions;
    ClientAfterSendOk(w.deck, w.serverId, w.up, w.down, k, w.clients[k], r.toServer, origin);
  }

  lemma SendKeepsClients(w: World, v: World, cab: string, copy: Copy)
    requires Books(w) && ClientsOk(w.deck, w.serverId, w.up, w.down, w.clients)
    requires cab in w.cabins && w.cabins[cab].outbox != [] && Passes(w, v, cab, copy)
    ensures ClientsOk(v.deck, v.serverId, v.up, v.down, v.clients)
  {
    hide ClientOk, PassOn, Routed, Emissions, Books, ToClient;
    AddresseeExists(w, copy.username);
    forall k | k in v.clients
      ensures ClientOk(v.deck, v.serverId, v.up, v.down, k, v.clients[k])
    {
      SendKeepsClient(w, cab, copy, k, Some(Origin(cab, |w.cabins[cab].settled|)));
    }
  }

  /** A delivery that is new on the client's side is sourced. */
  lemma ArrivalSourced(after: map<string, CabinProc>, p: ClientProc, arrivals: seq<Frames>, cab: string, n: nat)
    requires AllSourced(after, p) && |arrivals| <= 1
    requires arrivals != [] ==> Sourced(after, Emission(arrivals[0], Some(Origin(cab, n))))
    ensures AllSourced(after, p.(emitted := p.emitted + Emissions(arrivals, Some(Origin(cab, n)))))
  {
    var emitted := p.emitted + Emissions(arrivals, Some(Origin(cab, n)));
    forall i | 0 <= i < |emitted|
      ensures Sourced(after, emitted[i])
    {
      if i < |p.emitted| {
        assert Sourced(after, p.emitted[i]);
      }
    }
  }

  /** The new entries of both ledgers agree: for the cabin that sent, and for any other. */
  lemma ArrivalAgrees(cab: string, p: CabinProc, fate: Settled, k: string, client: ClientProc, arrivals: seq<Frames>,
                      other: string, q: CabinProc)
    requires Agree(other, if other == cab then p else q, k, client)
    requires |arrivals| == if fate.delivered && fate.client == k then 1 else 0
    requires other == cab ==> q.settled == p.settled + [fate]
    ensures Agree(other, q, k, client.(emitted := client.emitted
                                       + Emissions(arrivals, Some(Origin(cab, |p.settled|)))))
  {
    var origin := Some(Origin(cab, |p.settled|));
    DeliveredToOneMore(p.settled, fate, k);
    if arrivals == [] {
      assert client.emitted + Emissions(arrivals, origin) == client.emitted;
    } else {
      assert Emissions(arrivals, origin) == [Emission(arrivals[0], origin)];
      FromCabinOneMore(client.emitted, Emission(arrivals[0], origin), other);
    }
  }

  lemma SettlingGrows(before: map<string, CabinProc>, cab: string, q: CabinProc, fate: Settled, copy: Copy)
    requires AllGrow(before, before) && cab in before
    requires var p := before[cab];
             && q == p.(outbox := q.outbox, settled := p.settled + [fate])
             && |p.settled| < |Copies(p.broadcasts)| && copy == Copies(p.broadcasts)[|p.settled|]
    ensures AllGrow(before, before[cab := q])
    ensures Sourced(before[cab := q], Emission(TextMsg(copy), Some(Origin(cab, |before[cab].settled|))))
  {
    hide Copies, TextMsg;
    assert Grows(before[cab], before[cab]);
  }

  lemma DeliveryRecorded(before: map<string, CabinProc>, cab: string, q: CabinProc, fate: Settled,
                         copy: Copy, k: string, client: ClientProc, arrivals: seq<Frames>)
    requires AllSourced(before, client) && AllGrow(before, before)
    requires forall other :: other in before ==> Agree(other, before[other], k, client)
    requires cab in before
    requires var p := before[cab];
             && q == p.(outbox := q.outbox, settled := p.settled + [fate])
             && |p.settled| < |Copies(p.broadcasts)| && copy == Copies(p.broadcasts)[|p.settled|]
    requires arrivals == if fate.delivered && fate.client == k then [TextMsg(copy)] else []
    ensures var after := before[cab := q];
            var e := client.(emitted := client.emitted + Emissions(arrivals, Some(Origin(cab, |before[cab].settled|))));
            && AllSourced(after, e)
            && (forall other :: other in after ==> Agree(other, after[other], k, e))
  {
    var p := before[cab];
    var after := before[cab := q];
    SettlingGrows(before, cab, q, fate, copy);
    hide AllGrow, Sourced, AllSourced, Agree, Emissions, TextMsg, Copies;
    SourcedStays(before, after, client);
    ArrivalSourced(after, client, arrivals, cab, |p.settled|);
    forall other | other in after
      ensures Agree(other, after[other], k, client.(emitted := client.emitted
                                                    + Emissions(arrivals, Some(Origin(cab, |p.settled|)))))
    {
      ArrivalAgrees(cab, p, fate, k, client, arrivals, other, after[other]);
    }
  }

  lemma SendKeepsDeliveries(w: World, v: World, cab: string, copy: Copy)
    requires Inv(w)
    requires cab in w.cabins && w.cabins[cab].outbox != [] && Passes(w, v, cab, copy)
    ensures Deliveries(v.cabins, v.clients)
  {
    hide ClientOk, CabinOk, Agree, AllSourced;
    var p := w.cabins[cab];
    var q := SettledBy(w.deck, cab, p, copy.username);
    var r := PassOn(w.deck, cab, Send("TEXT", copy.username, copy.sender, [copy.text]));
    var fate := q.settled[|p.settled|];
    AddresseeExists(w, copy.username);
    SettledWithinCopies(w.deck, w.awaiting, w.cabins);
    forall k | k in v.clients
      ensures AllSourced(v.cabins, v.clients[k])
      ensures forall other :: other in v.cabins ==> Agree(other, v.cabins[other], k, v.clients[k])
    {
      var arrivals := ToClient(w.serverId, r.toServer, k);
      DeliveryReaches(w.deck, w.serverId, cab, copy.username, copy.sender, copy.text, k);
      hide PassOn, Routed, AllGrow;
      DeliveryRecorded(w.cabins, cab, q, fate, copy, k, w.clients[k], arrivals);
    }
  }

  lemma PassOnAddressed(d: Deck, serverId: string, cab: string, send: Service, clients: set<string>)
    requires send.Send? && Addressee(d, send.username) in clients
    ensures Addressed(Routed(PassOn(d, cab, send).toServer, serverId), clients)
  {
    var r := PassOn(d, cab, send);
    if r.toServer != [] {
      assert r.toServer == [r.toServer[0]];
      RoutedOne(r.toServer[0], serverId);
    }
  }

  lemma SendKeepsBooks(w: World, v: World, cab: string, copy: Copy)
    requires Books(w) && ClientsOk(w.deck, w.serverId, w.up, w.down, w.clients)
    requires cab in w.cabins && w.cabins[cab].outbox != [] && Passes(w, v, cab, copy)
    ensures Books(v)
  {
    hide ClientsOk, DeckInv, Routed, PassOn;
    AddresseeExists(w, copy.username);
    PassOnAddressed(w.deck, w.serverId, cab, Send("TEXT", copy.username, copy.sender, [copy.text]), w.clients.Keys);
  }

  lemma SendKeeps(w: World, cab: string)
    requires Inv(w) && Enabled(w, DeckCabin(cab)) && cab in w.deck.cabins
    ensures Inv(Next(w, DeckCabin(cab)))
    ensures Next(w, DeckCabin(cab)).deck == w.deck
  {
    hide Inv, AfterCabin, Passes, CabinOk;
    var copy := SendStep(w, cab);
    PassingKeeps(w, AfterCabin(w, cab), cab, copy);
  }

  lemma PassingKeeps(w: World, v: World, cab: string, copy: Copy)
    requires Inv(w) && cab in w.cabins && w.cabins[cab].outbox != [] && Passes(w, v, cab, copy)
    requires CabinOk(w.deck, w.awaiting, cab, SettledBy(w.deck, cab, w.cabins[cab], copy.username))
    ensures Inv(v) && v.deck == w.deck
  {
    hide CabinOk, ClientsOk, Deliveries, Books;
    SendKeepsBooks(w, v, cab, copy);
    SendKeepsClients(w, v, cab, copy);
    SendKeepsDeliveries(w, v, cab, copy);
    ReplaceCabin(w.deck, w.awaiting, w.cabins, cab, SettledBy(w.deck, cab, w.cabins[cab], copy.username));
    assert v.awaiting == w.awaiting && v.serverId == w.serverId && v.deck == w.deck;
    assert v.cabins == w.cabins[cab := SettledBy(w.deck, cab, w.cabins[cab], copy.username)];
    hide Passes;
  }

  lemma DeckCabinKeeps(w: World, cab: string)
    requires Inv(w) && Enabled(w, DeckCabin(cab))
    ensures Inv(Next(w, DeckCabin(cab)))
    ensures Next(w, DeckCabin(cab)).deck == w.deck
  {
    hide Inv, Next;
    if cab in w.deck.cabins {
      SendKeeps(w, cab);
    } else if w.cabins[cab].outbox == [REGISTRATION] {
      RegistrationKeeps(w, cab);
    } else {
      LateInfoKeeps(w, cab);
    }
  }

  // ----- The inner receive of a registration -----

  /** The frame the inner receive takes is the info message of a cabin that is new on the books. */
  lemma AwaitedCabin(d: Deck, awaiting: Option<string>, cab: string, p: CabinProc)
    requires CabinOk(d, awaiting, cab, p) && awaiting == Some(cab) && p.outbox != []
    ensures cab != "" && cab !in d.cabins && Titled(p.title, p.description)
    ensures p.outbox == [InfoMsg(p.title, p.description)]
    ensures p.phase.Serving? && p.users == {} && NoHistory(p) && p.inbox == []
  {
  }

  function InfoOf(cab: string, p: CabinProc): (info: Frames)
    ensures |info| >= 3 && info[0] == cab && info[1] == p.title
  {
    Prefixed(cab, InfoMsg(p.title, p.description))
  }

  lemma InfoRegisters(d: Deck, cab: string, p: CabinProc)
    requires CabinOk(d, Some(cab), cab, p) && p.outbox != []
    ensures Registered(Enter(d, InfoOf(cab, p)), p.(outbox := []))
  {
    AwaitedCabin(d, Some(cab), cab, p);
    hide CabinOk, Registered, Enter;
    NewcomerRegistered(Enter(d, InfoOf(cab, p)), p.(outbox := []));
  }

  lemma InfoStep(w: World)
    requires Inv(w) && Enabled(w, DeckInfo)
    ensures var cab := w.awaiting.value;
            var p := w.cabins[cab];
            var v := Next(w, DeckInfo);
            && cab != "" && cab !in w.deck.cabins && Titled(p.title, p.description)
            && v == w.(awaiting := None, deck := Enter(w.deck, InfoOf(cab, p)),
                       cabins := w.cabins[cab := p.(outbox := [])])
            && Registered(v.deck, p.(outbox := []))
  {
    hide CabinOk, ClientsOk, Deliveries, Registered, DeckInv, Enter;
    var cab := w.awaiting.value;
    var p := w.cabins[cab];
    assert CabinOk(w.deck, w.awaiting, cab, p);
    AwaitedCabin(w.deck, w.awaiting, cab, p);
    InfoRegisters(w.deck, cab, p);
    assert p.outbox[1..] == [];
  }

  lemma InfoKeepsCabins(w: World)
    requires Inv(w) && Enabled(w, DeckInfo)
    ensures var v := Next(w, DeckInfo); CabinsOk(v.deck, v.awaiting, v.cabins)
  {
    hide ClientsOk, Deliveries, AfterInfo, Registered, DeckInv, Addressed, Unregistered;
    var v := Next(w, DeckInfo);
    var cab := w.awaiting.value;
    InfoStep(w);
    var info := InfoOf(cab, w.cabins[cab]);
    assert CabinOk(v.deck, None, cab, v.cabins[cab]);
    hide CabinOk, Enter;
    forall other | other in w.cabins && other != cab
      ensures CabinOk(v.deck, None, other, v.cabins[other])
    {
      OthersKeptByEnter(w.deck, w.awaiting, info, other, w.cabins[other]);
    }
  }

  /** Registering a cabin changes no client's record. */
  lemma ClientKeptByEnter(d: Deck, info: Frames, serverId: string, up: seq<Frames>, down: seq<Frames>, c: string,
                          p: ClientProc)
    requires |info| >= 3 && ClientOk(d, serverId, up, down, c, p)
    ensures ClientOk(Enter(d, info), serverId, up, down, c, p)
  {
    hide Disciplined, Upstream, Downstream, Greeted;
  }

  lemma InfoKeepsClients(w: World)
    requires Inv(w) && Enabled(w, DeckInfo)
    ensures var v := Next(w, DeckInfo); ClientsOk(v.deck, v.serverId, v.up, v.down, v.clients)
  {
    var v := Next(w, DeckInfo);
    var cab := w.awaiting.value;
    InfoStep(w);
    var info := InfoOf(cab, w.cabins[cab]);
    hide ClientOk, CabinsOk, Deliveries, AfterInfo, Registered, Enter;
    forall c | c in w.clients
      ensures ClientOk(v.deck, v.serverId, v.up, v.down, c, v.clients[c])
    {
      ClientKeptByEnter(w.deck, info, w.serverId, w.up, w.down, c, w.clients[c]);
    }
  }

  lemma InfoKeepsBooks(w: World)
    requires Inv(w) && Enabled(w, DeckInfo)
    ensures Books(Next(w, DeckInfo))
  {
    hide CabinsOk, ClientsOk, Deliveries, DeckInv, AfterInfo, Registered;
    InfoStep(w);
    var cab := w.awaiting.value;
    EnterSound(w.deck, InfoOf(cab, w.cabins[cab]));
  }

  lemma InfoKeepsDeliveries(w: World)
    requires Inv(w) && Enabled(w, DeckInfo)
    ensures var v := Next(w, DeckInfo); Deliveries(v.cabins, v.clients)
  {
    hide CabinsOk, ClientsOk, Deliveries, DeckInv, AfterInfo, Registered, Enter;
    var v := Next(w, DeckInfo);
    InfoStep(w);
    SettledWithinCopies(w.deck, w.awaiting, w.cabins);
    hide Copies;
    assert AllGrow(w.cabins, v.cabins);
    DeliveriesWhenUnsettled(w.cabins, v.cabins, w.clients);
  }

  lemma DeckInfoKeeps(w: World)
    requires Inv(w) && Enabled(w, DeckInfo)
    ensures Inv(Next(w, DeckInfo))
  {
    hide Books, CabinsOk, ClientsOk, Deliveries, AfterInfo;
    InfoKeepsBooks(w);
    InfoKeepsCabins(w);
    InfoKeepsClients(w);
    InfoKeepsDeliveries(w);
  }

  lemma DeckTimeoutKeeps(w: World)
    requires Inv(w) && Enabled(w, DeckTimeout)
    ensures Inv(Next(w, DeckTimeout))
  {
    hide Registered, ClientsOk, Deliveries;
    forall cab | cab in w.cabins
      ensures CabinOk(w.deck, None, cab, w.cabins[cab])
    {
      assert CabinOk(w.deck, w.awaiting, cab, w.cabins[cab]);
    }
  }

  // ----- Every step and every run -----

  lemma StepKeeps(w: World, a: Action)
    requires Inv(w) && Enabled(w, a)
    ensures Inv(Next(w, a))
  {
    hide Inv, Enabled, Next;
    match a
    case SpawnCabin(cab, title, description) => SpawnCabinKeeps(w, cab, title, description);
    case CabinTurn(cab, order) => CabinTurnKeeps(w, cab, order);
    case SpawnClient(c, username, password) => SpawnClientKeeps(w, c, username, password);
    case UserLine(c, line, accepted) => UserLineKeeps(w, c, line, accepted);
    case ClientTurn(c) => ClientTurnKeeps(w, c);
    case RelayUp(c) => RelayUpKeeps(w, c);
    case RelayDown => RelayDownKeeps(w);
    case DeckCrew(order) => DeckCrewKeeps(w, order);
    case DeckCabin(cab) => DeckCabinKeeps(w, cab);
    case DeckInfo => DeckInfoKeeps(w);
    case DeckTimeout => DeckTimeoutKeeps(w);
  }

  /** The deck's books change only when it handles a crew message or the info message of a registration. */
  lemma BooksChange(w: World, a: Action)
    requires Inv(w) && Enabled(w, a) && !a.DeckCrew? && !a.DeckInfo?
    ensures Next(w, a).deck == w.deck
  {
    hide Inv, AfterCabin;
    if a.DeckCabin? {
      DeckCabinKeeps(w, a.cab);
    }
  }

  lemma InitHolds(serverId: string)
    ensures Inv(Init(serverId))
  {
  }

  lemma {:induction false} RunKeeps(w: World, actions: seq<Action>)
    requires Inv(w) && Runs(w, actions)
    ensures Inv(After(w, actions))
    decreases |actions|
  {
    hide Inv, Enabled, Next;
    if actions == [] {
    } else {
      StepKeeps(w, actions[0]);
      RunKeeps(Next(w, actions[0]), actions[1..]);
    }
  }
}
