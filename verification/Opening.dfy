/** What can happen: a new cabin can register, a new client can log in, and its texts can be forwarded. Together with
    module Progress this gives a run from the very start in which a text is written and delivered. */
module Opening {
  import opened Broadcasting
  import opened Client
  import opened ClientSteps
  import opened Completeness
  import opened Deck
  import opened Defines
  import opened History
  import opened Invariant
  import opened Lobby
  import opened Membership
  import opened Progress
  import opened Relay
  import opened Rosters
  import opened Seating
  import opened Shipdeck
  import opened Steps
  import opened Typing
  import opened World
  import opened Wrappers

  lemma InitReachable(serverId: string, unshared: bool)
    ensures ReachableAs(Init(serverId), unshared)
  {
    assert Runs(Init(serverId), []) && After(Init(serverId), []) == Init(serverId) && Unshared(Init(serverId), []);
  }

  // ----- A cabin registers -----

  lemma Spawned(w: World, cab: string, title: string, description: string, unshared: bool) returns (v: World)
    requires ReachableAs(w, unshared) && cab != "" && cab !in w.cabins && Titled(title, description)
    ensures ReachableAs(v, unshared) && v == w.(cabins := w.cabins[cab := NewCabin(title, description)])
  {
    hide ReachableAs;
    QuietStepReachable(w, SpawnCabin(cab, title, description), unshared);
    v := Next(w, SpawnCabin(cab, title, description));
  }

  lemma GreetedNext(w: World, cab: string, unshared: bool) returns (v: World)
    requires ReachableAs(w, unshared) && w.awaiting.None? && cab in w.cabins && cab !in w.deck.cabins
    requires w.cabins[cab].outbox == [REGISTRATION]
    ensures ReachableAs(v, unshared)
    ensures v == w.(awaiting := Some(cab),
                    cabins := w.cabins[cab := w.cabins[cab].(outbox := [], inbox := [SuccessMsg(cab)])])
  {
    hide ReachableAs, AfterCabin, CabinOk, DeckInv;
    AsIsReachable(w, unshared);
    ReachableCabin(w, cab);
    RegistrationStep(w, cab);
    QuietStepReachable(w, DeckCabin(cab), unshared);
    v := Next(w, DeckCabin(cab));
  }

  lemma IntroducedNext(w: World, cab: string, unshared: bool) returns (v: World)
    requires ReachableAs(w, unshared) && cab in w.cabins
    requires w.cabins[cab].phase.Registering? && w.cabins[cab].users == {}
    requires w.cabins[cab].inbox == [SuccessMsg(cab)] && w.cabins[cab].outbox == []
    ensures ReachableAs(v, unshared)
    ensures var p := w.cabins[cab];
            v == w.(cabins := w.cabins[cab := p.(phase := Serving, inbox := [],
                                                 outbox := [InfoMsg(p.title, p.description)])])
  {
    hide ReachableAs, InfoMsg;
    assert Accepts(SuccessMsg(cab));
    var p := w.cabins[cab];
    assert p.inbox[1..] == [] && p.outbox + [InfoMsg(p.title, p.description)] == [InfoMsg(p.title, p.description)];
    QuietStepReachable(w, CabinTurn(cab, []), unshared);
    v := Next(w, CabinTurn(cab, []));
  }

  lemma EnteredNext(w: World, cab: string, unshared: bool) returns (v: World)
    requires ReachableAs(w, unshared) && w.awaiting == Some(cab) && cab in w.cabins && w.cabins[cab].outbox != []
    ensures ReachableAs(v, unshared)
    ensures v == w.(awaiting := None, deck := Enter(w.deck, InfoOf(cab, w.cabins[cab])),
                    cabins := w.cabins[cab := w.cabins[cab].(outbox := [])])
  {
    hide ReachableAs, Inv, AfterInfo, Registered, Titled, InfoOf;
    AsIsReachable(w, unshared);
    ReachableInv(w);
    InfoStep(w);
    QuietStepReachable(w, DeckInfo, unshared);
    v := Next(w, DeckInfo);
  }

  lemma MemberOnBooks(d: Deck, c: string, cab: string)
    requires c in Members(d, cab)
    ensures c in d.clients
  {
  }

  lemma SenderOnBooks(w: World, v: World, cab: string)
    requires Forwards(w, v, cab)
    ensures Sender(w) in w.deck.clients
  {
  }

  lemma FreshIsUnknown(w: World)
    requires Reachable(w)
    ensures w.deck.cabins.Keys <= w.cabins.Keys && w.deck.clients.Keys <= w.clients.Keys
  {
    hide Reachable, DeckInv, CabinsOk, ClientsOk, Deliveries, Addressed;
    ReachableInv(w);
  }

  /** Whenever the registration handler is not waiting, a new cabin can register: it is entered with its title, which
      becomes the default if there was none. */
  lemma CabinCanRegister(w: World, cab: string, title: string, description: string, unshared: bool) returns (v: World)
    requires ReachableAs(w, unshared) && w.awaiting.None? && cab != "" && cab !in w.cabins && Titled(title, description)
    ensures ReachableAs(v, unshared)
    ensures v == w.(deck := v.deck, cabins := v.cabins)
    ensures v.deck == w.deck.(cabinIds := w.deck.cabinIds[title := cab],
                              cabins := w.deck.cabins[cab := CabinInfo(cab, title, description, 0)],
                              defaultCabin := if w.deck.defaultCabin == "" then title else w.deck.defaultCabin)
  {
    AsIsReachable(w, unshared);
    FreshIsUnknown(w);
    hide ReachableAs;
    v := Spawned(w, cab, title, description, unshared);
    v := GreetedNext(v, cab, unshared);
    v := IntroducedNext(v, cab, unshared);
    v := EnteredNext(v, cab, unshared);
  }

  // ----- A client logs in -----

  /** The client runs, everything it sent has left it, and it is a member of the cabin. */
  ghost predicate Speaks(w: World, c: string, cab: string) {
    && c in w.clients && w.clients[c].phase.Active? && w.clients[c].outbox == []
    && c in Members(w.deck, cab) && cab in w.cabins
  }

  lemma LoginQueued(w: World, c: string, username: string, password: string, unshared: bool) returns (v: World)
    requires ReachableAs(w, unshared) && w.up == [] && c != "" && c !in w.clients
    ensures ReachableAs(v, unshared)
    ensures v == w.(up := [Prefixed(c, LoginMsg(username, password))],
                    clients := w.clients[c := NewClient(username, password).(outbox := [])])
  {
    hide ReachableAs, LoginMsg, Prefixed;
    QuietStepReachable(w, SpawnClient(c, username, password), unshared);
    var u := Next(w, SpawnClient(c, username, password));
    QuietStepReachable(u, RelayUp(c), unshared);
    v := Next(u, RelayUp(c));
    assert u.clients[c].outbox[1..] == [];
    assert v.clients == w.clients[c := NewClient(username, password).(outbox := [])];
  }

  /** The login is handled: the client is seated and its ACK is under way. */
  ghost predicate LoggedIn(w: World, v: World, c: string) {
    && v.up == [] && v.down == [[c, "SHIP", "ACK"]] && v.cabins.Keys == w.cabins.Keys
    && c in v.clients && c in w.clients
    && v.clients[c].phase == w.clients[c].phase
    && v.clients[c].inbox == w.clients[c].inbox && v.clients[c].outbox == w.clients[c].outbox
    && c in Members(v.deck, At(w.deck.cabinIds, w.deck.defaultCabin))
    && At(w.deck.cabinIds, w.deck.defaultCabin) in v.deck.cabins
  }

  lemma AckRouted(s: string, c: string)
    ensures Routed([[s, c, "SHIP", "ACK"]], s) == [[c, "SHIP", "ACK"]]
  {
    RoutedOne([s, c, "SHIP", "ACK"], s);
  }

  lemma LoginHandled(w: World, c: string, username: string, password: string, unshared: bool) returns (v: World)
    requires ReachableAs(w, unshared) && c in w.clients && c !in w.deck.clients
    requires w.up == [Prefixed(c, LoginMsg(username, password))] && w.down == []
    requires w.deck.defaultCabin != "" && (unshared ==> NameFree(w.deck, username))
    ensures ReachableAs(v, unshared) && LoggedIn(w, v, c)
  {
    var order := AnEnumeration(w.deck.cabins.Keys);
    RequestOfLogin(w.serverId, c, username, password);
    assert Enabled(w, DeckCrew(order)) && Sender(w) == c && RequestAt(w).Login? && w.up[0] != [];
    v := Next(w, DeckCrew(order));
    assert RequestAt(w).username == username;
    hide ReachableAs, Enabled, Next, Members, CrewRequest, LoginAcknowledged, DistinctNames, NameFree;
    if unshared {
      FreeNameStaysDistinct(w, order);
    }
    StepReachable(w, DeckCrew(order), unshared);
    AsIsReachable(w, unshared);
    LoginSeated(w, order);
    MemberIf(v.deck, c, At(w.deck.cabinIds, w.deck.defaultCabin));
    AckUnderWay(w, order);
    LoginIs(w, v, c);
  }

  lemma FreeNameStaysDistinct(w: World, order: seq<string>)
    requires ReachableAs(w, true) && Enabled(w, DeckCrew(order)) && w.up != [] && Enumerates(order, w.deck.cabins.Keys)
    requires RequestAt(w).Login? ==> NameFree(w.deck, RequestAt(w).username)
    ensures DistinctNames(Next(w, DeckCrew(order)).deck)
  {
    hide ReachableUnshared, Reachable, Inv, Next, Enabled, OnServerInput, OnRequest, CrewRequest, Affects, Extends,
      DeckInv, Unique, DistinctNames, NameFree, Enumerates;
    AsIsReachable(w, true);
    ReachableInv(w);
    ReachableIsDistinct(w);
    CrewStep(w, order);
    DeckOfInv(w);
    DeckAfterCrew(w, order);
    OnRequestUnique(w.deck, w.serverId, w.up[0][0], RequestAt(w), order);
    UniqueIsDistinct(Next(w, DeckCrew(order)).deck);
  }

  /** What handling the login does outside the deck. */
  ghost predicate LoginAcknowledged(w: World, v: World, c: string) {
    && w.up != [] && v.up == w.up[1..] && v.down == w.down + [[c, "SHIP", "ACK"]] && v.cabins.Keys == w.cabins.Keys
    && c in v.clients && c in w.clients
    && v.clients[c].phase == w.clients[c].phase
    && v.clients[c].inbox == w.clients[c].inbox && v.clients[c].outbox == w.clients[c].outbox
  }

  lemma AckUnderWay(w: World, order: seq<string>)
    requires Reachable(w) && Enabled(w, DeckCrew(order)) && w.up != [] && w.up[0] != []
    requires Sender(w) in w.clients && Sender(w) !in w.deck.clients && RequestAt(w).Login?
    ensures LoginAcknowledged(w, Next(w, DeckCrew(order)), Sender(w))
  {
    hide Reachable, Inv, OnServerInput, OnRequest, CrewRequest, CabinAfterCrew, Extends, DeckInv, Routed,
      ToClient, Enumerates, Serviceable, Prefixed, OneReply;
    ReachableInv(w);
    CrewStep(w, order);
    AckRouted(w.serverId, Sender(w));
  }

  lemma LoginIs(w: World, v: World, c: string)
    requires LoginAcknowledged(w, v, c) && |w.up| == 1 && w.down == []
    requires c in Members(v.deck, At(w.deck.cabinIds, w.deck.defaultCabin))
    requires At(w.deck.cabinIds, w.deck.defaultCabin) in v.deck.cabins
    ensures LoggedIn(w, v, c)
  {
  }

  lemma AckReceived(w: World, c: string, unshared: bool) returns (v: World)
    requires ReachableAs(w, unshared) && c in w.clients && w.down == [[c, "SHIP", "ACK"]]
    requires w.clients[c].inbox == [] && w.clients[c].phase.LoggingIn?
    ensures ReachableAs(v, unshared)
    ensures v.deck == w.deck && v.cabins == w.cabins && v.up == w.up && v.down == []
    ensures c in v.clients && v.clients[c].phase.Active? && v.clients[c].outbox == w.clients[c].outbox
  {
    hide ReachableAs, Routed;
    RoutedOne([c, "SHIP", "ACK"], c);
    QuietStepReachable(w, RelayDown, unshared);
    var u := Next(w, RelayDown);
    assert u.clients[c].inbox == [["SHIP", "ACK"]];
    assert IsAck(["SHIP", "ACK"]);
    QuietStepReachable(u, ClientTurn(c), unshared);
    v := Next(u, ClientTurn(c));
  }

  /** Whenever the relay is idle and there is a default cabin, a new client can log in, under whatever name, and is then
      a running member of that cabin. If its name was free, no name is shared through it. */
  lemma NewcomerCanLogIn(w: World, c: string, username: string, password: string, unshared: bool) returns (v: World)
    requires ReachableAs(w, unshared) && w.up == [] && w.down == [] && w.deck.defaultCabin != ""
    requires c != "" && c !in w.clients && (unshared ==> NameFree(w.deck, username))
    ensures ReachableAs(v, unshared) && v.up == [] && v.down == []
    ensures Speaks(v, c, At(w.deck.cabinIds, w.deck.defaultCabin))
  {
    AsIsReachable(w, unshared);
    FreshIsUnknown(w);
    hide ReachableAs, NameFree, Members, Prefixed, LoginMsg;
    v := LoginQueued(w, c, username, password, unshared);
    v := LoginHandled(v, c, username, password, unshared);
    AsIsReachable(v, unshared);
    FreshIsUnknown(v);
    v := AckReceived(v, c, unshared);
  }

  // ----- A client speaks -----

  lemma RequestOfText(s: string, c: string, line: string)
    ensures CrewRequest(Prefixed(s, Prefixed(c, ["CREW", "TEXT", line]))) == Say(line)
  {
    assert Prefixed(s, Prefixed(c, ["CREW", "TEXT", line])) == [s, c, "CREW", "TEXT", line];
  }

  /** Whenever nothing is under way to the deck, every line of such a client that is no command can be forwarded to its
      cabin as a text. */
  lemma TextCanBeForwarded(w: World, c: string, cab: string, line: string, unshared: bool)
    returns (v: World, order: seq<string>)
    requires ReachableAs(w, unshared) && w.up == [] && Speaks(w, c, cab) && Typeable(line) && !IsCommand(line)
    ensures ReachableAs(v, unshared) && Enabled(v, DeckCrew(order)) && cab in v.cabins
    ensures Forwards(v, Next(v, DeckCrew(order)), cab)
    ensures Sender(v) == c && RequestAt(v).text == line
  {
    LineFrames(line, true);
    assert c in w.clients && w.clients[c].phase.Active? && w.clients[c].outbox == [];
    hide ReachableAs, Enabled, Next, Members, Forwards, Prefixed, Typeable, IsCommand, LineMsg, Speaks, CrewRequest,
      Enumerates, TextWaits;
    v := LineQueued(w, c, line, unshared);
    order := AnEnumeration(v.deck.cabins.Keys);
    TextIsWaiting(w, v, c, cab, line);
    WaitingCanBeHandled(v, c, cab, line, order);
    AsIsReachable(v, unshared);
    WaitingForwards(v, c, cab, line, order);
  }

  /** The client's text is the next message the deck handles. */
  ghost predicate TextWaits(w: World, c: string, cab: string, line: string) {
    && w.up != [] && w.up[0] != [] && Sender(w) == c && RequestAt(w) == Say(line)
    && cab in w.cabins && c in w.deck.clients && w.deck.clients[c].cabin == cab
  }

  lemma TextIsWaiting(w: World, v: World, c: string, cab: string, line: string)
    requires Speaks(w, c, cab) && v.deck == w.deck && v.cabins == w.cabins
    requires v.up == [Prefixed(c, ["CREW", "TEXT", line])]
    ensures TextWaits(v, c, cab, line)
  {
    RequestOfText(v.serverId, c, line);
    hide CrewRequest;
  }

  lemma WaitingCanBeHandled(w: World, c: string, cab: string, line: string, order: seq<string>)
    requires TextWaits(w, c, cab, line) && Enumerates(order, w.deck.cabins.Keys)
    ensures Enabled(w, DeckCrew(order))
  {
    hide CrewRequest, Enumerates;
  }

  lemma WaitingForwards(w: World, c: string, cab: string, line: string, order: seq<string>)
    requires Reachable(w) && TextWaits(w, c, cab, line) && Enabled(w, DeckCrew(order))
    ensures cab in w.cabins && Forwards(w, Next(w, DeckCrew(order)), cab)
    ensures w.up != [] && w.up[0] != [] && Sender(w) == c && RequestAt(w) == Say(line)
  {
    hide Reachable, Inv, CrewRequest, Next, Forwards, Enabled;
    ReachableInv(w);
    TextForwards(w, order, cab);
  }

  lemma StreamHas(p: CabinProc, stream: seq<Frames>, k: nat)
    requires k < |p.notices| && StreamEnds(p, stream, k, |p.notices| - k)
    ensures ["CABIN", "TEXT", p.notices[k].sender, p.notices[k].text] in stream
  {
    var numbers :| Numbers(numbers, p, stream) && EndsWith(numbers, k, |p.notices| - k);
    var at := |numbers| - (|p.notices| - k);
    assert numbers[at] == k;
    assert stream[at] == ["CABIN", "TEXT", p.notices[k].sender, p.notices[k].text];
  }

  lemma MemberHeard(w: World, cab: string, c: string, k: nat)
    requires cab in w.cabins && k < |w.cabins[cab].notices| && DeliveredSince(w, cab, k)
    requires c in w.clients && c in Members(w.deck, cab)
    ensures var n := w.cabins[cab].notices[k];
            ["CABIN", "TEXT", n.sender, n.text] in TextsFrom(w.clients[c].emitted, cab)
  {
    hide StreamEnds, TextsFrom, Members, Arrived;
    StreamHas(w.cabins[cab], TextsFrom(w.clients[c].emitted, cab), k);
  }

  /** From the very start: for any cabin, client and text there is a run in which the cabin registers, the client logs
      in and says the text, and the text is delivered, once, to its author. */
  lemma FirstWords(serverId: string, cab: string, title: string, description: string, c: string, username: string,
                   password: string, line: string)
    returns (v: World, k: nat)
    requires cab != "" && Titled(title, description) && c != "" && Typeable(line) && !IsCommand(line)
    ensures Reachable(v) && cab in v.cabins && c in v.clients && c in Members(v.deck, cab)
    ensures k < |v.cabins[cab].notices| && v.cabins[cab].notices[k].text == line && DeliveredSince(v, cab, k)
    ensures ["CABIN", "TEXT", v.cabins[cab].notices[k].sender, line] in TextsFrom(v.clients[c].emitted, cab)
  {
    assert NameFree(NEW_DECK, username);
    hide Reachable, ReachableUnshared, Enabled, Next, Runs, After, Typeable, IsCommand, Members, CrewRequest, Forwards,
      Unshared, DeliveredSince, TextsFrom, Speaks, NameFree, Names, Enter;
    InitReachable(serverId, true);
    var w := CabinCanRegister(Init(serverId), cab, title, description, true);
    w := NewcomerCanLogIn(w, c, username, password, true);
    var order;
    w, order := TextCanBeForwarded(w, c, cab, line, true);
    k := |w.cabins[cab].notices|;
    SenderOnBooks(w, Next(w, DeckCrew(order)), cab);
    TextCanReachMembers(w, order, cab);
    var actions :| Delivers(w, actions, order, cab);
    v := After(w, actions);
    UnsharedIsReachable(w);
    ReachableAfter(w, actions);
    FreshIsUnknown(v);
    MemberOnBooks(v.deck, c, cab);
    MemberHeard(v, cab, c, k);
  }
}
