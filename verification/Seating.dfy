/** The default cabin and the seating of clients: once there is a default cabin, every client that is online has
    a registered cabin, whatever commands it sends. */
module Seating {
  import opened ClientSteps
  import opened Deck
  import opened Defines
  import opened History
  import opened Invariant
  import opened Membership
  import opened Protocol
  import opened Steps
  import opened World

  /** If the client is on the books and online, its cabin is registered. */
  ghost predicate SeatedOrGone(d: Deck, c: string) {
    c in d.clients && d.clients[c].online ==> d.clients[c].cabin in d.cabins
  }

  /** There is a default cabin, and its name resolves to a registered one. */
  ghost predicate HasDefault(d: Deck, name: string) {
    name != "" && d.defaultCabin == name && At(d.cabinIds, name) in d.cabins
  }

  /** `/join` moves the client exactly if a cabin other than its own is registered under the name: then its record
      names that cabin, and both cabins are told. Otherwise its record stays as it was, and no cabin is told anything.
      `/leave` is a `/join` of the default cabin. */
  lemma JoinMovesExactly(d: Deck, s: string, c: string, name: string, order: seq<string>)
    requires DeckInv(d) && c in d.clients && d.clients[c].online && Enumerates(order, d.cabins.Keys)
    ensures var r := OnServerInput(d, [s, c, "CREW", "COMMAND", "/join", name], order);
            var me := d.clients[c];
            && (name in d.cabinIds && d.cabinIds[name] in d.cabins && d.cabinIds[name] != me.cabin
                <==> r.deck.clients != d.clients)
            && (r.deck.clients != d.clients <==> r.toCabins != [])
            && (r.toCabins != [] ==>
                  var to := d.cabinIds[name];
                  && r.deck.clients == d.clients[c := me.(cabin := to)]
                  && r.toCabins == [[me.cabin, "DISCONNECT", me.username], [to, "JOIN", me.username]])
            && r.deck.cabins.Keys == d.cabins.Keys && r.toServer == []
    ensures name == d.defaultCabin ==>
              OnServerInput(d, [s, c, "CREW", "COMMAND", "/leave"], order)
              == OnServerInput(d, [s, c, "CREW", "COMMAND", "/join", name], order)
  {
    var input := [s, c, "CREW", "COMMAND", "/join", name];
    var r, me := OnServerInput(d, input, order), d.clients[c];
    assert r == JoinCabin(d, c, name);
    LeaveIsJoin(d, c);
    hide DeckInv, Enumerates, JoinCabin, LeaveCabin;
    LookupMoves(d, c, name);
    if name in d.cabinIds && d.cabinIds[name] in d.cabins && d.cabinIds[name] != me.cabin {
      assert r.deck.clients[c].cabin == d.cabinIds[name];
    }
  }

  /** A deck with a default cabin keeps it, and every client that was seated or gone, or not yet there, is seated or
      gone. */
  ghost predicate KeepsSeats(d: Deck, e: Deck) {
    && e.defaultCabin == d.defaultCabin
    && e.cabins.Keys == d.cabins.Keys
    && forall k :: SeatedOrGone(d, k) ==> SeatedOrGone(e, k)
  }

  lemma EnrollSeats(d: Deck, s: string, c: string, username: string, password: string)
    requires DeckInv(d) && c !in d.clients && d.defaultCabin != ""
    requires Enroll(d, s, c, username, password).deck.cabins.Keys == d.cabins.Keys
    ensures var e := Enroll(d, s, c, username, password).deck;
            && KeepsSeats(d, e)
            && c in e.clients && e.clients[c].online && e.clients[c].cabin == At(d.cabinIds, d.defaultCabin)
            && e.clients[c].cabin in e.cabins
  {
    assert Defaulted(d);
    hide DeckInv, Enroll, Extends, Tracks, Silent;
    EnrollSound(d, s, c, username, password);
  }

  lemma LookupSeats(d: Deck, c: string, name: string)
    requires DeckInv(d) && c in d.clients && d.clients[c].online && d.defaultCabin != ""
    requires JoinCabin(d, c, name).deck.cabins.Keys == d.cabins.Keys
    ensures KeepsSeats(d, JoinCabin(d, c, name).deck)
  {
    var e := JoinCabin(d, c, name).deck;
    var target := At(d.cabinIds, name);
    assert e.defaultCabin == d.defaultCabin
        && e.clients == if target in d.cabins then d.clients[c := d.clients[c].(cabin := target)] else d.clients by {
      hide DeckInv, ChangeCabin, Extends, Tracks, Silent;
      LookupAndChangeSound(d, c, name);
    }
    hide DeckInv, JoinCabin;
  }

  lemma QuitSeats(d: Deck, c: string)
    requires DeckInv(d) && c in d.clients && d.clients[c].online && d.defaultCabin != ""
    requires QuitShip(d, c).deck.cabins.Keys == d.cabins.Keys
    ensures KeepsSeats(d, QuitShip(d, c).deck)
  {
    hide DeckInv, QuitShip, Extends, Tracks, Silent;
    QuitSound(d, c);
  }

  lemma OnRequestSeats(d: Deck, s: string, c: string, request: Request, order: seq<string>)
    requires DeckInv(d) && Enumerates(order, d.cabins.Keys) && Serviceable(d, c) && d.defaultCabin != ""
    ensures var e := OnRequest(d, s, c, request, order).deck;
            && KeepsSeats(d, e)
            && (c !in d.clients && request.Login? ==>
                  && c in e.clients && e.clients[c].online && e.clients[c].cabin == At(d.cabinIds, d.defaultCabin)
                  && e.clients[c].cabin in e.cabins)
  {
    OnRequestKeepsCabins(d, s, c, request, order);
    hide DeckInv, Enroll, QuitShip, KeepsSeats, ChangeCabin;
    if request.Login? && c !in d.clients {
      EnrollSeats(d, s, c, request.username, request.password);
    } else if c in d.clients && request.Leave? {
      LeaveIsJoin(d, c);
      LookupSeats(d, c, d.defaultCabin);
    } else if c in d.clients && request.Join? {
      LookupSeats(d, c, request.cabinName);
    } else if c in d.clients && request.Quit? {
      QuitSeats(d, c);
    } else {
      SeatsKept(d);
    }
  }

  lemma SeatsKept(d: Deck)
    ensures KeepsSeats(d, d)
  {
  }

  lemma CrewSeats(w: World, order: seq<string>, c: string)
    requires Inv(w) && Enabled(w, DeckCrew(order))
    requires w.deck.defaultCabin != "" && SeatedOrGone(w.deck, c)
    ensures var v := Next(w, DeckCrew(order));
            && HasDefault(v.deck, w.deck.defaultCabin) && SeatedOrGone(v.deck, c)
  {
    hide CabinsOk, ClientsOk, Deliveries, OnServerInput, CrewRequest, CabinAfterCrew, ClientAfterCrew, Extends,
      OnRequest, Affects, Serviceable, Directory, Headcount, SeatedOrGone;
    CrewStep(w, order);
    OnRequestSeats(w.deck, w.serverId, w.up[0][0], CrewRequest(DeckInput(w, w.up[0])), order);
  }

  lemma InfoSeats(w: World, c: string)
    requires Inv(w) && Enabled(w, DeckInfo)
    requires w.deck.defaultCabin != "" && SeatedOrGone(w.deck, c)
    ensures var v := Next(w, DeckInfo); HasDefault(v.deck, w.deck.defaultCabin) && SeatedOrGone(v.deck, c)
  {
    hide CabinsOk, ClientsOk, Deliveries, AfterInfo, Registered;
    InfoStep(w);
  }

  /** Once there is a default cabin, no step changes its name or makes it unresolvable, and no step leaves an online
      client without a registered cabin: neither one that had a cabin nor one that logs in. */
  lemma StepSeats(w: World, a: Action, c: string)
    requires Inv(w) && Enabled(w, a) && w.deck.defaultCabin != "" && SeatedOrGone(w.deck, c)
    ensures HasDefault(Next(w, a).deck, w.deck.defaultCabin)
    ensures SeatedOrGone(Next(w, a).deck, c)
  {
    if a.DeckCrew? {
      hide Inv, Next, Enabled;
      CrewSeats(w, a.order, c);
    } else if a.DeckInfo? {
      hide Inv, Next, Enabled;
      InfoSeats(w, c);
    } else {
      assert Defaulted(w.deck);
      hide Inv, Next, Enabled;
      BooksChange(w, a);
    }
  }

  lemma {:induction false} SeatingFrom(w: World, actions: seq<Action>, c: string)
    requires Inv(w) && Runs(w, actions) && w.deck.defaultCabin != "" && SeatedOrGone(w.deck, c)
    ensures HasDefault(After(w, actions).deck, w.deck.defaultCabin)
    ensures SeatedOrGone(After(w, actions).deck, c)
    decreases |actions|
  {
    if actions == [] {
      assert Defaulted(w.deck);
    } else {
      hide Inv, Next, Enabled, SeatedOrGone;
      var v := Next(w, actions[0]);
      StepSeats(w, actions[0], c);
      StepKeeps(w, actions[0]);
      SeatingFrom(v, actions[1..], c);
    }
  }

  /** The theorem over runs: from any reachable state with a default cabin on, the default keeps its name and always
      resolves to a registered cabin, and every client that then had a registered cabin, or was not yet logged in, has
      a registered cabin as long as it is online. */
  lemma SeatingForever(w: World, actions: seq<Action>, c: string)
    requires Reachable(w) && Runs(w, actions) && w.deck.defaultCabin != ""
    requires c in w.deck.clients && w.deck.clients[c].online ==> w.deck.clients[c].cabin in w.deck.cabins
    ensures var d, e := w.deck, After(w, actions).deck;
            && e.defaultCabin == d.defaultCabin && At(e.cabinIds, e.defaultCabin) in e.cabins
            && (c in e.clients && e.clients[c].online ==> e.clients[c].cabin in e.cabins)
  {
    ReachableInv(w);
    hide Inv, Reachable, Next, Enabled, After, Runs;
    SeatingFrom(w, actions, c);
  }

  /** A login is seated in the default cabin. */
  lemma LoginSeated(w: World, order: seq<string>)
    requires Reachable(w) && Enabled(w, DeckCrew(order)) && w.deck.defaultCabin != ""
    requires w.up != [] && w.up[0] != [] && Sender(w) !in w.deck.clients
    ensures var e := Next(w, DeckCrew(order)).deck;
            && Sender(w) in e.clients && e.clients[Sender(w)].online
            && e.clients[Sender(w)].cabin == At(w.deck.cabinIds, w.deck.defaultCabin)
            && e.clients[Sender(w)].cabin in e.cabins
  {
    var c, request := Sender(w), RequestAt(w);
    assert Enumerates(order, w.deck.cabins.Keys) && c == w.up[0][0] && request == CrewRequest(DeckInput(w, w.up[0]));
    hide *;
    ReachableInv(w);
    LoginIsRequest(w, order);
    CrewStep(w, order);
    DeckAfterCrew(w, order);
    assert DeckInv(w.deck) by {
      DeckOfInv(w);
    }
    OnRequestSeats(w.deck, w.serverId, c, request, order);
  }

  lemma LoginIsRequest(w: World, order: seq<string>)
    requires Inv(w) && w.up != [] && w.up[0] != [] && Sender(w) !in w.deck.clients
    ensures RequestAt(w).Login?
  {
    hide DeckInv, CabinsOk, Deliveries, CrewRequest, Greeted, Downstream;
    var c := Sender(w);
    assert c in w.clients && ClientOk(w.deck, w.serverId, w.up, w.down, c, w.clients[c]);
    HeadMessage(w.deck, w.serverId, w.up, c, w.clients[c]);
  }
}
