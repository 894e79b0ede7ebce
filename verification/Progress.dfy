/** Progress: the queues of a cabin can be drained from every state, without anybody moving, so every text that is
    forwarded can reach its members; and such a text can come about. */
module Progress {
  import opened Completeness
  import opened Deck
  import opened Defines
  import opened History
  import opened Invariant
  import opened Lobby
  import opened Membership
  import opened Relay
  import opened Rosters
  import opened Shipdeck
  import opened Steps
  import opened World
  import opened Wrappers

  ghost predicate Drained(w: World, cab: string) {
    cab in w.cabins && w.cabins[cab].inbox == [] && w.cabins[cab].outbox == []
  }

  /** Nothing but the queues of the cabin has changed as far as the deck is concerned. */
  ghost predicate SameDeck(w: World, v: World, cab: string) {
    v.deck == w.deck && v.awaiting == w.awaiting && cab in v.cabins
  }

  lemma CabinCanTurn(w: World, cab: string) returns (a: Action)
    requires Inv(w) && cab in w.cabins && cab in w.deck.cabins && w.cabins[cab].inbox != []
    ensures Enabled(w, a) && SameDeck(w, Next(w, a), cab)
    ensures |Next(w, a).cabins[cab].inbox| < |w.cabins[cab].inbox|
  {
    hide Inv;
    RegisteredServes(w, cab);
    a := CabinTurn(cab, AnEnumeration(w.cabins[cab].users));
    TurnShortens(w, a);
  }

  lemma RegisteredServes(w: World, cab: string)
    requires Inv(w) && cab in w.cabins && cab in w.deck.cabins
    ensures w.cabins[cab].phase.Serving?
  {
    hide Inv, Forwarded, Ledgered, Known;
    InvParts(w, cab);
  }

  lemma TurnShortens(w: World, a: Action)
    requires a.CabinTurn? && Enabled(w, a)
    ensures SameDeck(w, Next(w, a), a.cab)
    ensures |Next(w, a).cabins[a.cab].inbox| < |w.cabins[a.cab].inbox|
  {
    hide Enumerates, OrderOf, UsersAfter, SendAll, Accepts, InfoMsg;
  }

  lemma DeckCanTake(w: World, cab: string)
    requires Inv(w) && cab in w.cabins && cab in w.deck.cabins && w.awaiting.None?
    requires w.cabins[cab].inbox == [] && w.cabins[cab].outbox != []
    ensures Enabled(w, DeckCabin(cab)) && SameDeck(w, Next(w, DeckCabin(cab)), cab)
    ensures var q := Next(w, DeckCabin(cab)).cabins[cab];
            q.inbox == [] && |q.outbox| < |w.cabins[cab].outbox|
  {
    hide Inv, PassOn, Routed, ToClient, Emissions, AfterCabin;
    var copy := SendStep(w, cab);
  }

  /** The deck's books are these in every state of the run. */
  ghost predicate DeckKept(w: World, actions: seq<Action>, d: Deck)
    requires Runs(w, actions)
    decreases |actions|
  {
    w.deck == d && (actions != [] ==> DeckKept(Next(w, actions[0]), actions[1..], d))
  }

  lemma {:induction false} KeptIsSteady(w: World, actions: seq<Action>, d: Deck, cab: string)
    requires Runs(w, actions) && DeckKept(w, actions, d)
    ensures Steady(w, actions, cab, Members(d, cab)) && After(w, actions).deck == d
    ensures DistinctNames(d) ==> Unshared(w, actions)
    decreases |actions|
  {
    hide Enabled, Next, Members, DistinctNames;
    if actions == [] {
    } else {
      KeptIsSteady(Next(w, actions[0]), actions[1..], d, cab);
    }
  }

  lemma {:induction false} DrainFrom(w: World, cab: string) returns (actions: seq<Action>)
    requires Inv(w) && w.awaiting.None? && cab in w.cabins && cab in w.deck.cabins
    ensures Runs(w, actions) && DeckKept(w, actions, w.deck) && Drained(After(w, actions), cab)
    decreases |w.cabins[cab].inbox|, |w.cabins[cab].outbox|
  {
    hide Inv, Enabled, Next;
    var p := w.cabins[cab];
    if p.inbox == [] && p.outbox == [] {
      return [];
    }
    var a := DeckCabin(cab);
    if p.inbox != [] {
      a := CabinCanTurn(w, cab);
    } else {
      DeckCanTake(w, cab);
    }
    StepKeeps(w, a);
    var rest := DrainFrom(Next(w, a), cab);
    actions := [a] + rest;
    RunBehind(w, a, rest);
  }

  lemma RunBehind(w: World, a: Action, rest: seq<Action>)
    requires Enabled(w, a) && Runs(Next(w, a), rest)
    ensures Runs(w, [a] + rest) && After(w, [a] + rest) == After(Next(w, a), rest)
    ensures forall d :: DeckKept(w, [a] + rest, d) <==> w.deck == d && DeckKept(Next(w, a), rest, d)
  {
    hide Enabled, Next;
    assert ([a] + rest)[1..] == rest;
  }

  lemma TimedOut(w: World) returns (v: World)
    requires Inv(w) && w.awaiting.Some?
    ensures Enabled(w, DeckTimeout) && v == Next(w, DeckTimeout) && Inv(v)
    ensures v == w.(awaiting := None)
  {
    v := Next(w, DeckTimeout);
    hide Inv;
    StepKeeps(w, DeckTimeout);
  }

  /** From every reachable state there is a run that empties the queues of a registered cabin and changes nothing on
      the deck's books. */
  lemma Drainable(w: World, cab: string) returns (actions: seq<Action>)
    requires Reachable(w) && cab in w.cabins && cab in w.deck.cabins
    ensures Runs(w, actions) && DeckKept(w, actions, w.deck) && Drained(After(w, actions), cab)
  {
    hide Inv, Reachable, Enabled, Next, Runs, After, DeckKept, Drained;
    ReachableInv(w);
    if w.awaiting.None? {
      actions := DrainFrom(w, cab);
    } else {
      var v := TimedOut(w);
      var rest := DrainFrom(v, cab);
      actions := [DeckTimeout] + rest;
      RunBehind(w, DeckTimeout, rest);
    }
  }

  /** The run begins with the forwarding of a text to the cabin and shares no names, and in the end that text has been
      delivered: to every member, the author included, once, and to nobody else. */
  ghost predicate Delivers(w: World, actions: seq<Action>, order: seq<string>, cab: string)
    requires w.up != [] && w.up[0] != [] && RequestAt(w).Say? && cab in w.cabins
    requires Sender(w) in w.deck.clients
  {
    && actions != [] && actions[0] == DeckCrew(order) && Runs(w, actions) && Unshared(w, actions)
    && var v, k := After(w, actions), |w.cabins[cab].notices|;
       && cab in v.cabins && Sender(w) in Members(v.deck, cab) && Members(v.deck, cab) == Members(w.deck, cab)
       && k < |v.cabins[cab].notices|
       && v.cabins[cab].notices[k]
          == Notice(w.deck.clients[Sender(w)].username, RequestAt(w).text, Names(w.deck, cab))
       && DeliveredSince(v, cab, k)
  }

  /** So in whatever state a text is forwarded, reached without shared names, the run can go on such that it is
      delivered. */
  lemma TextCanReachMembers(w: World, order: seq<string>, cab: string)
    requires ReachableUnshared(w) && Enabled(w, DeckCrew(order)) && cab in w.cabins
    requires Forwards(w, Next(w, DeckCrew(order)), cab)
    ensures exists actions :: Delivers(w, actions, order, cab)
  {
    var a := DeckCrew(order);
    var v := Next(w, a);
    assert Sender(w) in Members(w.deck, cab) && cab in v.cabins;
    hide Forwards, ReachableUnshared, Reachable, Members, Enabled, Next, CrewRequest, Runs, After, Steady, DeckKept,
      Unshared, DistinctNames, DeliveredSince, Names;
    ForwardingKeepsDeck(w, order, cab);
    QuietStepReachable(w, a, true);
    AsIsReachable(v, true);
    ForwardingCabin(w, v, cab);
    var rest := Drainable(v, cab);
    var actions := [a] + rest;
    RunBehind(w, a, rest);
    ReachableIsDistinct(w);
    KeptIsSteady(w, actions, w.deck, cab);
    ExactlyOneCopy(w, actions, cab);
    assert Delivers(w, actions, order, cab);
  }

  lemma ForwardingKeepsDeck(w: World, order: seq<string>, cab: string)
    requires ReachableUnshared(w) && Enabled(w, DeckCrew(order)) && cab in w.cabins
    requires Forwards(w, Next(w, DeckCrew(order)), cab)
    ensures Next(w, DeckCrew(order)).deck == w.deck
  {
    hide ReachableUnshared, Reachable, Inv, Members, Names, CrewRequest, OnServerInput, Affects, Extends, DeckInv,
      CabinAfterCrew, ClientAfterCrew, ChangeCabin, Enroll, JoinCabin, LeaveCabin, QuitShip;
    UnsharedIsReachable(w);
    ReachableInv(w);
    CrewStep(w, order);
    DeckAfterCrew(w, order);
  }

  lemma ForwardingCabin(w: World, v: World, cab: string)
    requires Reachable(v) && cab in v.cabins && Members(v.deck, cab) != {}
    ensures cab in v.deck.cabins
  {
    hide Reachable, Inv, Members;
    ReachableInv(v);
    SeatedCabinRegistered(v, cab);
  }
}
