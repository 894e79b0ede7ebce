/** Rosters: as long as no two online clients share a name, every registered cabin is in step with the deck. Handling
    its pending messages leads it to the names of its members, and every text is addressed to the members at the time
    of its forwarding. */
module Rosters {
  import opened CabinSteps
  import opened Deck
  import opened Defines
  import opened History
  import opened Invariant
  import opened Ledger
  import opened Lobby
  import opened Membership
  import opened Relay
  import opened Steps
  import opened World

  // ----- The assumption -----

  /** No two online clients bear the same name. */
  ghost predicate DistinctNames(d: Deck) {
    forall b, c :: b in d.clients && c in d.clients && b != c && d.clients[b].online && d.clients[c].online ==>
      d.clients[b].username != d.clients[c].username
  }

  /** They do so in no state of the run. */
  ghost predicate Unshared(w: World, actions: seq<Action>)
    requires Runs(w, actions)
    decreases |actions|
  {
    && DistinctNames(w.deck)
    && (actions != [] ==> Unshared(Next(w, actions[0]), actions[1..]))
  }

  /** A state some run leads to in which no name is shared. */
  ghost predicate ReachableUnshared(w: World) {
    exists serverId, actions ::
      Runs(Init(serverId), actions) && Unshared(Init(serverId), actions) && After(Init(serverId), actions) == w
  }

  lemma UnsharedIsReachable(w: World)
    requires ReachableUnshared(w)
    ensures Reachable(w)
  {
    hide Enabled, Next, Runs, After, Unshared;
  }

  /** A state some run leads to, in which no name is shared if `unshared` asks for it. */
  ghost predicate ReachableAs(w: World, unshared: bool) {
    if unshared then ReachableUnshared(w) else Reachable(w)
  }

  lemma AsIsReachable(w: World, unshared: bool)
    requires ReachableAs(w, unshared)
    ensures Reachable(w)
  {
    hide ReachableUnshared, Reachable;
    if unshared {
      UnsharedIsReachable(w);
    }
  }

  // ----- What it means to be in step -----

  /** Handling the pending messages leads the cabin to the names of its members on the deck. */
  ghost predicate Roster(d: Deck, cab: string, p: CabinProc) {
    FinalUsers(p.users, p.inbox) == Names(d, cab)
  }

  /** What the cabin broadcast, and what it will broadcast for its pending messages, are the texts the deck
      forwarded, each addressed to the members at the time of forwarding. */
  ghost predicate Snapshot(p: CabinProc) {
    && AllAnswer(p.broadcasts, p.notices)
    && Replay(p.users, p.inbox) == p.notices[|p.broadcasts|..]
  }

  /** Since the membership last changed, audiences are the present names and every SEND reached its member. */
  ghost predicate Stable(d: Deck, cab: string, p: CabinProc) {
    && |p.settled| <= |Copies(p.broadcasts)| && p.stableFrom <= |p.notices|
    && (forall k :: p.stableFrom <= k < |p.notices| ==> p.notices[k].audience == Names(d, cab))
    && (forall i :: 0 <= i < |p.settled| && p.stableFrom <= Copies(p.broadcasts)[i].index ==>
          p.settled[i].delivered && p.settled[i].client in Members(d, cab))
  }

  ghost predicate InStep(d: Deck, cab: string, p: CabinProc) {
    Roster(d, cab, p) && Snapshot(p) && Stable(d, cab, p)
  }

  ghost predicate AllInStep(w: World) {
    && Unique(w.deck)
    && forall cab :: cab in w.cabins && cab in w.deck.cabins ==> InStep(w.deck, cab, w.cabins[cab])
  }

  // ----- One cabin -----

  lemma TurnInStep(d: Deck, cab: string, p: CabinProc, order: seq<string>)
    requires p.phase.Serving? && Ledgered(p) && InStep(d, cab, p) && p.inbox != [] && Enumerates(order, p.users)
    ensures InStep(d, cab, CabinNext(p, order))
  {
    var q := CabinNext(p, order);
    if OrderOf(p.inbox[0]).Tell? {
      SnapshotAfterBroadcast(p, order);
      BroadcastLedger(p, order);
      assert Copies(p.broadcasts) <= Copies(q.broadcasts);
      hide Copies, CabinNext, Names, Members, Replay, AllAnswer, Ledgered;
      assert q.settled == p.settled && q.stableFrom == p.stableFrom && q.notices == p.notices;
    } else {
      assert [] + Replay(q.users, q.inbox) == Replay(q.users, q.inbox);
    }
  }

  lemma SnapshotAfterBroadcast(p: CabinProc, order: seq<string>)
    requires Snapshot(p) && p.phase.Serving? && p.inbox != [] && OrderOf(p.inbox[0]).Tell?
    requires Enumerates(order, p.users)
    ensures Snapshot(CabinNext(p, order))
    ensures var q := CabinNext(p, order);
            && FinalUsers(q.users, q.inbox) == FinalUsers(p.users, p.inbox)
            && q.settled == p.settled && q.stableFrom == p.stableFrom && q.notices == p.notices
  {
    var q := CabinNext(p, order);
    var notice := NoticesAt(p.users, p.inbox[0])[0];
    var n := |p.broadcasts|;
    assert Replay(p.users, p.inbox) == [notice] + Replay(q.users, q.inbox);
    assert p.notices[n..][0] == notice && p.notices[n..][1..] == Replay(q.users, q.inbox);
    assert p.notices[n] == notice;
    assert Answers(q.broadcasts[n], notice);
    assert p.notices[n + 1..] == p.notices[n..][1..];
  }

  lemma NamesOfMembers(d: Deck, e: Deck, cab: string)
    requires Extends(d, e) && Members(e, cab) == Members(d, cab)
    ensures Names(e, cab) == Names(d, cab)
  {
  }

  lemma RosterAfterCrew(p: CabinProc, cab: string, d: Deck, r: Reaction, c: string, request: Request)
    requires cab != "" && Roster(d, cab, p) && Snapshot(p) && |p.broadcasts| <= |p.notices| && Tracks(d, r)
    requires Replay(Names(d, cab), Routed(r.toCabins, cab)) == NoticesOf(d, c, request, cab)
    ensures var q := CabinAfterCrew(p, cab, d, r, c, request); Roster(r.deck, cab, q) && Snapshot(q)
  {
    var q := CabinAfterCrew(p, cab, d, r, c, request);
    var queue := Routed(r.toCabins, cab);
    FinalUsersConcat(p.users, p.inbox, queue);
    ReplayConcat(p.users, p.inbox, queue);
    assert q.notices[|p.broadcasts|..] == p.notices[|p.broadcasts|..] + NoticesOf(d, c, request, cab);
  }

  lemma StableAfterCrew(p: CabinProc, cab: string, d: Deck, r: Reaction, c: string, request: Request)
    requires Extends(d, r.deck) && Ledgered(p) && |p.broadcasts| <= |p.notices| && Stable(d, cab, p)
    ensures Stable(r.deck, cab, CabinAfterCrew(p, cab, d, r, c, request))
  {
    var q := CabinAfterCrew(p, cab, d, r, c, request);
    if Members(r.deck, cab) == Members(d, cab) {
      NamesOfMembers(d, r.deck, cab);
    } else {
      forall i | 0 <= i < |p.settled|
        ensures Copies(p.broadcasts)[i].index < q.stableFrom
      {
        CopyBelongs(p.broadcasts, i);
      }
    }
  }

  lemma CrewInStep(d: Deck, cab: string, p: CabinProc, s: string, c: string, request: Request, order: seq<string>)
    requires DeckInv(d) && Enumerates(order, d.cabins.Keys) && Serviceable(d, c) && Unique(d)
    requires cab != "" && Ledgered(p) && InStep(d, cab, p)
    ensures var r := OnRequest(d, s, c, request, order);
            InStep(r.deck, cab, CabinAfterCrew(p, cab, d, r, c, request))
  {
    var r := OnRequest(d, s, c, request, order);
    hide DeckInv, OnRequest, Unique, NoNamesake, Ledgered, Roster, Stable, Tracks, Extends, CabinAfterCrew, Replay,
      Routed, NoticesOf;
    OnRequestSound(d, s, c, request, order);
    if c in d.clients {
      UniqueHasNoNamesake(d, c);
    }
    RosterAfterCrew(p, cab, d, r, c, request);
    StableAfterCrew(p, cab, d, r, c, request);
  }

  /** The copy's name was in the audience of its text. */
  lemma CopyAddressed(p: CabinProc, i: nat)
    requires AllAnswer(p.broadcasts, p.notices) && i < |Copies(p.broadcasts)|
    ensures var copy := Copies(p.broadcasts)[i];
            copy.index < |p.broadcasts| && copy.username in p.notices[copy.index].audience
  {
    CopyBelongs(p.broadcasts, i);
    var copy := Copies(p.broadcasts)[i];
    assert Answers(p.broadcasts[copy.index], p.notices[copy.index]);
  }

  /** A SEND of a text forwarded since the membership last changed reaches the member that bears its name. */
  lemma SettleInStep(d: Deck, cab: string, p: CabinProc, copy: Copy)
    requires Unique(d) && InStep(d, cab, p) && p.outbox != []
    requires |p.settled| < |Copies(p.broadcasts)| && copy == Copies(p.broadcasts)[|p.settled|]
    ensures InStep(d, cab, SettledBy(d, cab, p, copy.username))
  {
    if p.stableFrom <= copy.index {
      CopyAddressed(p, |p.settled|);
      assert copy.username in Names(d, cab);
      var x :| x in Members(d, cab) && d.clients[x].username == copy.username;
      assert Addressee(d, copy.username) == x;
    }
  }

  lemma NewcomerInStep(d: Deck, cab: string, p: CabinProc)
    requires Members(d, cab) == {} && p.users == {} && NoHistory(p) && p.inbox == []
    ensures InStep(d, cab, p)
  {
    assert Names(d, cab) == {};
  }

  // ----- Every step -----

  lemma InvParts(w: World, cab: string)
    requires Inv(w) && cab in w.cabins
    ensures DeckInv(w.deck) && cab != ""
    ensures cab in w.deck.cabins ==> Registered(w.deck, w.cabins[cab])
    ensures cab !in w.deck.cabins ==> Members(w.deck, cab) == {}
  {
    hide ClientsOk, Deliveries, Registered, Unregistered;
    assert CabinOk(w.deck, w.awaiting, cab, w.cabins[cab]);
    if cab !in w.deck.cabins {
      NobodyInUnknownCabin(w.deck, cab);
    }
  }

  lemma CabinTurnInStep(w: World, cab: string, order: seq<string>)
    requires Inv(w) && AllInStep(w) && Enabled(w, CabinTurn(cab, order))
    ensures AllInStep(Next(w, CabinTurn(cab, order)))
  {
    hide Inv, CabinNext, InStep, Unique, Forwarded, Ledgered, Known;
    InvParts(w, cab);
    if cab in w.deck.cabins {
      TurnInStep(w.deck, cab, w.cabins[cab], order);
    }
  }

  lemma DeckCrewInStep(w: World, order: seq<string>)
    requires Inv(w) && AllInStep(w) && Enabled(w, DeckCrew(order))
    requires DistinctNames(Next(w, DeckCrew(order)).deck)
    ensures AllInStep(Next(w, DeckCrew(order)))
  {
    hide Inv, InStep, Unique, CrewRequest, OnServerInput, OnRequest, CabinAfterCrew, ClientAfterCrew, DeckInv, Extends,
      DistinctNames, Registered, Members, Affects, Enumerates;
    var v := Next(w, DeckCrew(order));
    CrewStep(w, order);
    var c, request := Sender(w), RequestAt(w);
    assert DeckInv(w.deck) by {
      DeckOfInv(w);
    }
    DistinctLogin(w.deck, v.deck, w.serverId, c, request, order);
    OnRequestUnique(w.deck, w.serverId, c, request, order);
    forall cab | cab in v.cabins && cab in v.deck.cabins
      ensures InStep(v.deck, cab, v.cabins[cab])
    {
      InvParts(w, cab);
      assert Ledgered(w.cabins[cab]) by {
        RegisteredLedger(w.deck, w.cabins[cab]);
      }
      CrewInStep(w.deck, cab, w.cabins[cab], w.serverId, c, request, order);
    }
  }

  lemma RegisteredLedger(d: Deck, p: CabinProc)
    requires Registered(d, p)
    ensures Ledgered(p)
  {
    hide Ledgered, Forwarded, Known;
  }

  /** If no name is shared after a login, its name was free. */
  lemma DistinctLogin(d: Deck, e: Deck, s: string, c: string, request: Request, order: seq<string>)
    requires Enumerates(order, d.cabins.Keys) && DistinctNames(e)
    requires var r := OnRequest(d, s, c, request, order); e == r.deck && Affects(d, r, s, c, request)
    ensures request.Login? && c !in d.clients ==> NameFree(d, request.username)
  {
    hide OnRequest, OneReply;
    if request.Login? && c !in d.clients {
      forall b | b in d.clients && d.clients[b].online
        ensures d.clients[b].username != request.username
      {
        assert e.clients[b] == d.clients[b];
      }
    }
  }

  lemma DeckCabinInStep(w: World, cab: string)
    requires Inv(w) && AllInStep(w) && Enabled(w, DeckCabin(cab))
    ensures AllInStep(Next(w, DeckCabin(cab)))
  {
    hide Inv, InStep, Unique, AfterCabin, CabinOk;
    if cab in w.deck.cabins {
      var copy := SendStep(w, cab);
      SettleInStep(w.deck, cab, w.cabins[cab], copy);
    } else {
      OtherCabinsKept(w, cab);
    }
  }

  lemma OtherCabinsKept(w: World, cab: string)
    requires Inv(w) && Enabled(w, DeckCabin(cab)) && cab !in w.deck.cabins
    ensures var v := Next(w, DeckCabin(cab));
            v.deck == w.deck && v.cabins.Keys == w.cabins.Keys
            && forall k :: k in w.cabins && k != cab ==> v.cabins[k] == w.cabins[k]
  {
    hide CabinOk, AfterCabin, ClientsOk, Deliveries, DeckInv;
    assert CabinOk(w.deck, w.awaiting, cab, w.cabins[cab]);
    if w.cabins[cab].outbox == [REGISTRATION] {
      RegistrationStep(w, cab);
    } else {
      LateInfoStep(w, cab);
    }
  }

  lemma DeckInfoInStep(w: World)
    requires Inv(w) && AllInStep(w) && Enabled(w, DeckInfo)
    ensures AllInStep(Next(w, DeckInfo))
  {
    hide Inv, InStep, AfterInfo, Registered, Members, Names;
    var v := Next(w, DeckInfo);
    var cab := w.awaiting.value;
    InfoStep(w);
    AwaitedIsNew(w);
    InvParts(w, cab);
    SameClients(w.deck, v.deck);
    NewcomerInStep(v.deck, cab, v.cabins[cab]);
    forall k | k in v.cabins && k in v.deck.cabins && k != cab
      ensures InStep(v.deck, k, v.cabins[k])
    {
      InStepOfSameClients(w.deck, v.deck, k, w.cabins[k]);
    }
  }

  lemma AwaitedIsNew(w: World)
    requires Inv(w) && Enabled(w, DeckInfo)
    ensures var p := w.cabins[w.awaiting.value]; p.users == {} && NoHistory(p) && p.inbox == []
  {
    hide CabinOk, ClientsOk, Deliveries, DeckInv;
    assert CabinOk(w.deck, w.awaiting, w.awaiting.value, w.cabins[w.awaiting.value]);
    AwaitedCabin(w.deck, w.awaiting, w.awaiting.value, w.cabins[w.awaiting.value]);
  }

  lemma InStepOfSameClients(d: Deck, e: Deck, cab: string, p: CabinProc)
    requires e.clients == d.clients && InStep(d, cab, p)
    ensures InStep(e, cab, p)
  {
    SameClients(d, e);
    hide Members, Names;
  }

  lemma StepKeepsInStep(w: World, a: Action)
    requires Inv(w) && AllInStep(w) && Enabled(w, a) && DistinctNames(Next(w, a).deck)
    ensures AllInStep(Next(w, a))
  {
    if a.CabinTurn? {
      hide Inv, AllInStep, Next, Enabled;
      CabinTurnInStep(w, a.cab, a.order);
    } else if a.DeckCrew? {
      hide Inv, AllInStep, Next, Enabled;
      DeckCrewInStep(w, a.order);
    } else if a.DeckCabin? {
      hide Inv, AllInStep, Next, Enabled;
      DeckCabinInStep(w, a.cab);
    } else if a.DeckInfo? {
      hide Inv, AllInStep, Next, Enabled;
      DeckInfoInStep(w);
    } else {
      OtherStepsInStep(w, a);
    }
  }

  lemma OtherStepsSpareCabins(w: World, a: Action)
    requires w.deck.cabins.Keys <= w.cabins.Keys && Enabled(w, a)
    requires !a.CabinTurn? && !a.DeckCrew? && !a.DeckCabin? && !a.DeckInfo?
    ensures Next(w, a).deck == w.deck
    ensures forall cab :: cab in w.deck.cabins ==>
              cab in w.cabins && cab in Next(w, a).cabins && Next(w, a).cabins[cab] == w.cabins[cab]
  {
    hide ClientSays, ClientNext, NewCabin, NewClient, Routed, Titled, CabinNext, AfterCrew,
      AfterCabin, AfterInfo, Enumerates;
  }

  /** What clients and the relay do, a new cabin and a timeout do not concern the registered cabins. */
  lemma OtherStepsInStep(w: World, a: Action)
    requires Inv(w) && AllInStep(w) && Enabled(w, a)
    requires !a.CabinTurn? && !a.DeckCrew? && !a.DeckCabin? && !a.DeckInfo?
    ensures AllInStep(Next(w, a))
  {
    assert w.deck.cabins.Keys <= w.cabins.Keys by {
      hide DeckInv, CabinsOk, ClientsOk, Deliveries;
    }
    hide Inv, InStep, Unique, Next, Enabled;
    OtherStepsSpareCabins(w, a);
  }

  // ----- Every run -----

  lemma {:induction false} RunKeepsInStep(w: World, actions: seq<Action>)
    requires Inv(w) && AllInStep(w) && Runs(w, actions) && Unshared(w, actions)
    ensures AllInStep(After(w, actions))
    decreases |actions|
  {
    hide Inv, AllInStep, Enabled, Next, DistinctNames;
    if actions == [] {
    } else {
      var v := Next(w, actions[0]);
      assert DistinctNames(v.deck);
      StepKeeps(w, actions[0]);
      StepKeepsInStep(w, actions[0]);
      RunKeepsInStep(v, actions[1..]);
    }
  }

  lemma ReachableInStep(w: World)
    requires ReachableUnshared(w)
    ensures Inv(w) && AllInStep(w)
  {
    var serverId, actions :| Runs(Init(serverId), actions) && Unshared(Init(serverId), actions)
                             && After(Init(serverId), actions) == w;
    assert AllInStep(Init(serverId));
    hide Inv, AllInStep, Enabled, Next, Unshared;
    InitHolds(serverId);
    RunKeeps(Init(serverId), actions);
    RunKeepsInStep(Init(serverId), actions);
  }

  lemma ReachableInStepCabin(w: World, cab: string)
    requires ReachableUnshared(w) && cab in w.cabins && cab in w.deck.cabins
    ensures Registered(w.deck, w.cabins[cab]) && InStep(w.deck, cab, w.cabins[cab])
    ensures DeckInv(w.deck) && Unique(w.deck)
  {
    hide ReachableUnshared, Inv, InStep, Registered, DeckInv, Unique, Members;
    ReachableInStep(w);
    InvParts(w, cab);
  }

  lemma {:induction false} UnsharedConcat(w: World, a: seq<Action>, b: seq<Action>)
    requires Runs(w, a) && Unshared(w, a) && Runs(After(w, a), b) && Unshared(After(w, a), b)
    ensures Runs(w, a + b) && Unshared(w, a + b) && After(w, a + b) == After(After(w, a), b)
    decreases |a|
  {
    hide Enabled, Next, DistinctNames;
    if a == [] {
      assert a + b == b;
    } else {
      assert (a + b)[1..] == a[1..] + b;
      UnsharedConcat(Next(w, a[0]), a[1..], b);
    }
  }

  /** What such a run reaches from such a state is such a state. */
  lemma ReachableUnsharedAfter(w: World, actions: seq<Action>)
    requires ReachableUnshared(w) && Runs(w, actions) && Unshared(w, actions)
    ensures ReachableUnshared(After(w, actions))
  {
    hide Enabled, Next, Runs, After, Unshared;
    var serverId, before :| Runs(Init(serverId), before) && Unshared(Init(serverId), before)
                            && After(Init(serverId), before) == w;
    UnsharedConcat(Init(serverId), before, actions);
  }

  lemma UniqueIsDistinct(d: Deck)
    requires Unique(d)
    ensures DistinctNames(d)
  {
    forall b, c | b in d.clients && c in d.clients && b != c && d.clients[b].online && d.clients[c].online
      ensures d.clients[b].username != d.clients[c].username
    {
      assert At(d.crewIds, d.clients[b].username) == b && At(d.crewIds, d.clients[c].username) == c;
    }
  }

  lemma ReachableIsDistinct(w: World)
    requires ReachableUnshared(w)
    ensures DistinctNames(w.deck) && Unique(w.deck)
  {
    hide ReachableUnshared, Inv, DistinctNames, Unique, InStep;
    ReachableInStep(w);
    UniqueIsDistinct(w.deck);
  }

  /** One more step leads to such a state if it makes no two clients share a name. */
  lemma StepReachable(w: World, a: Action, unshared: bool)
    requires ReachableAs(w, unshared) && Enabled(w, a)
    requires unshared ==> DistinctNames(Next(w, a).deck)
    ensures ReachableAs(Next(w, a), unshared)
  {
    hide Reachable, ReachableUnshared, Enabled, Next, DistinctNames;
    assert [a][1..] == [];
    assert Runs(w, [a]) && After(w, [a]) == Next(w, a);
    if unshared {
      ReachableIsDistinct(w);
      assert Unshared(w, [a]);
      ReachableUnsharedAfter(w, [a]);
    } else {
      ReachableAfter(w, [a]);
    }
  }

  /** In particular if it leaves the deck's client records alone. */
  lemma QuietStepReachable(w: World, a: Action, unshared: bool)
    requires ReachableAs(w, unshared) && Enabled(w, a) && Next(w, a).deck.clients == w.deck.clients
    ensures ReachableAs(Next(w, a), unshared)
  {
    hide Reachable, ReachableUnshared, Enabled, Next;
    if unshared {
      ReachableIsDistinct(w);
    }
    StepReachable(w, a, unshared);
  }
}
