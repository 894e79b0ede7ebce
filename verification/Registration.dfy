/** What becomes of a cabin that asks to register: it is entered exactly if its info message is taken before the
    registration handler gives up; otherwise it is never entered, as nothing makes it ask again. */
module Registration {
  import opened CabinSteps
  import opened Deck
  import opened Defines
  import opened History
  import opened Invariant
  import opened Lobby
  import opened Membership
  import opened Relay
  import opened Steps
  import opened World
  import opened Wrappers

  /** The deck does not know the cabin, does not await it, and will not be asked by it again. */
  ghost predicate PassedOver(w: World, cab: string) {
    && cab in w.cabins && cab !in w.deck.cabins && w.awaiting != Some(cab)
    && w.cabins[cab].outbox != [REGISTRATION]
  }

  lemma UnknownCabin(w: World, cab: string)
    requires Inv(w) && cab in w.cabins && cab !in w.deck.cabins
    ensures Unregistered(cab, w.awaiting == Some(cab), w.cabins[cab])
    ensures Titled(w.cabins[cab].title, w.cabins[cab].description)
  {
    hide DeckInv, ClientsOk, Deliveries, Registered, Unregistered, Titled;
    assert CabinOk(w.deck, w.awaiting, cab, w.cabins[cab]);
  }

  lemma CrewPassesOver(w: World, order: seq<string>, cab: string)
    requires Inv(w) && Enabled(w, DeckCrew(order)) && PassedOver(w, cab)
    ensures PassedOver(Next(w, DeckCrew(order)), cab)
  {
    hide Inv, OnServerInput, OnRequest, Affects, Extends, CrewRequest, Enumerates, ClientAfterCrew, Routed, NoticesOf,
      Members;
    CrewStep(w, order);
  }

  /** The deck's handling of one cabin's message does not concern another cabin. */
  lemma OtherCabinKept(w: World, other: string, cab: string)
    requires Enabled(w, DeckCabin(other)) && cab in w.cabins && other != cab
    ensures var v := Next(w, DeckCabin(other));
            && cab in v.cabins && v.cabins[cab] == w.cabins[cab]
            && (v.awaiting == w.awaiting || v.awaiting == Some(other))
  {
    hide PassOn, Routed, ToClient, ServiceOf, Greet, Addressee, Admits, Emissions;
  }

  lemma CabinPassesOver(w: World, other: string, cab: string)
    requires Inv(w) && Enabled(w, DeckCabin(other)) && PassedOver(w, cab)
    ensures PassedOver(Next(w, DeckCabin(other)), cab)
  {
    assert other == cab ==> CabinOk(w.deck, w.awaiting, cab, w.cabins[cab]) by {
      hide DeckInv, ClientsOk, Deliveries, CabinOk;
    }
    hide Inv, AfterCabin, CabinOk;
    DeckCabinKeeps(w, other);
    if other == cab {
      LateInfoStep(w, cab);
    } else {
      OtherCabinKept(w, other, cab);
    }
  }

  lemma InfoPassesOver(w: World, cab: string)
    requires Inv(w) && Enabled(w, DeckInfo) && PassedOver(w, cab)
    ensures PassedOver(Next(w, DeckInfo), cab)
  {
    hide Inv, AfterInfo, Registered;
    InfoStep(w);
  }

  lemma TurnPassesOver(w: World, order: seq<string>, cab: string)
    requires Inv(w) && Enabled(w, CabinTurn(cab, order)) && PassedOver(w, cab)
    ensures PassedOver(Next(w, CabinTurn(cab, order)), cab)
  {
    hide Inv, Titled;
    UnknownCabin(w, cab);
    var p := w.cabins[cab];
    assert Accepts(SuccessMsg(cab)) && |InfoMsg(p.title, p.description)| != |REGISTRATION|;
    assert CabinNext(p, order).outbox[0] == InfoMsg(p.title, p.description);
  }

  lemma OthersPassOver(w: World, a: Action, cab: string)
    requires Enabled(w, a) && PassedOver(w, cab)
    requires !a.DeckCrew? && !a.DeckCabin? && !a.DeckInfo? && !(a.CabinTurn? && a.cab == cab)
    ensures PassedOver(Next(w, a), cab)
  {
    hide CabinNext, ClientNext, ClientSays, Routed, Titled, NewCabin, AfterCrew, AfterCabin, AfterInfo;
  }

  lemma StepPassesOver(w: World, a: Action, cab: string)
    requires Inv(w) && Enabled(w, a) && PassedOver(w, cab)
    ensures PassedOver(Next(w, a), cab)
  {
    hide Inv, Enabled, Next, PassedOver;
    if a.DeckCrew? {
      CrewPassesOver(w, a.order, cab);
    } else if a.DeckCabin? {
      CabinPassesOver(w, a.cab, cab);
    } else if a.DeckInfo? {
      InfoPassesOver(w, cab);
    } else if a.CabinTurn? && a.cab == cab {
      TurnPassesOver(w, a.order, cab);
    } else {
      OthersPassOver(w, a, cab);
    }
  }

  /** Once passed over, a cabin is never entered. */
  lemma {:induction false} PassedOverForever(w: World, actions: seq<Action>, cab: string)
    requires Inv(w) && Runs(w, actions) && PassedOver(w, cab)
    ensures PassedOver(After(w, actions), cab)
    decreases |actions|
  {
    hide Inv, Enabled, Next, PassedOver;
    if actions == [] {
    } else {
      StepKeeps(w, actions[0]);
      StepPassesOver(w, actions[0], cab);
      PassedOverForever(Next(w, actions[0]), actions[1..], cab);
    }
  }

  lemma CrewKeepsEntered(w: World, order: seq<string>)
    requires Inv(w) && Enabled(w, DeckCrew(order))
    ensures Next(w, DeckCrew(order)).deck.cabins.Keys == w.deck.cabins.Keys
  {
    hide Inv, OnServerInput, OnRequest, Affects, Extends, CrewRequest, Enumerates, CabinAfterCrew, ClientAfterCrew,
      Routed;
    CrewStep(w, order);
  }

  lemma InfoKeepsEntered(w: World)
    requires Inv(w) && Enabled(w, DeckInfo)
    ensures w.deck.cabins.Keys <= Next(w, DeckInfo).deck.cabins.Keys
  {
    hide Inv, AfterInfo, Registered;
    InfoStep(w);
  }

  /** No step takes a cabin off the books. */
  lemma StepKeepsEntered(w: World, a: Action, cab: string)
    requires Inv(w) && Enabled(w, a) && cab in w.deck.cabins
    ensures cab in Next(w, a).deck.cabins
  {
    hide Inv, Enabled, Next;
    if a.DeckCrew? {
      CrewKeepsEntered(w, a.order);
    } else if a.DeckInfo? {
      InfoKeepsEntered(w);
    } else {
      BooksChange(w, a);
    }
  }

  lemma {:induction false} EnteredForever(w: World, actions: seq<Action>, cab: string)
    requires Inv(w) && Runs(w, actions) && cab in w.deck.cabins
    ensures cab in After(w, actions).deck.cabins
    decreases |actions|
  {
    hide Inv, Enabled, Next;
    if actions == [] {
    } else {
      StepKeeps(w, actions[0]);
      StepKeepsEntered(w, actions[0], cab);
      EnteredForever(Next(w, actions[0]), actions[1..], cab);
    }
  }

  /** How the registration handler's wait ends in the run, if it does. */
  function Answer(actions: seq<Action>): Option<Action> {
    if actions == [] then None
    else if actions[0].DeckInfo? || actions[0].DeckTimeout? then Some(actions[0])
    else Answer(actions[1..])
  }

  lemma WaitGoesOn(w: World, a: Action, cab: string)
    requires Inv(w) && Enabled(w, a) && w.awaiting == Some(cab) && !a.DeckInfo? && !a.DeckTimeout?
    ensures Next(w, a).awaiting == Some(cab)
  {
    hide Inv, OnServerInput, CabinAfterCrew, ClientAfterCrew, Enumerates;
  }

  lemma AwaitedIsUnknown(w: World, cab: string)
    requires Inv(w) && w.awaiting == Some(cab)
    ensures cab in w.cabins && cab !in w.deck.cabins && w.cabins[cab].outbox != [REGISTRATION]
  {
    hide DeckInv, ClientsOk, Deliveries, Registered;
    assert CabinOk(w.deck, w.awaiting, cab, w.cabins[cab]);
  }

  lemma WaitEnds(w: World, a: Action, cab: string)
    requires Inv(w) && Enabled(w, a) && w.awaiting == Some(cab)
    ensures a.DeckInfo? ==> cab in Next(w, a).deck.cabins
    ensures a.DeckTimeout? ==> PassedOver(Next(w, a), cab)
  {
    AwaitedIsUnknown(w, cab);
    hide Inv, AfterInfo, Registered, AfterCrew, AfterCabin, CabinNext, ClientNext, ClientSays, Routed;
    if a.DeckInfo? {
      InfoStep(w);
    }
  }

  lemma {:induction false} OutcomeFrom(w: World, actions: seq<Action>, cab: string)
    requires Inv(w) && Runs(w, actions) && w.awaiting == Some(cab)
    ensures cab in After(w, actions).deck.cabins <==> Answer(actions) == Some(DeckInfo)
    ensures Answer(actions) == Some(DeckTimeout) ==> PassedOver(After(w, actions), cab)
    ensures Answer(actions) == None ==> After(w, actions).awaiting == Some(cab)
    decreases |actions|
  {
    hide Inv, Enabled, Next, PassedOver;
    if actions == [] {
      AwaitedIsUnknown(w, cab);
    } else {
      var a, rest := actions[0], actions[1..];
      var v := Next(w, a);
      StepKeeps(w, a);
      WaitEnds(w, a, cab);
      if a.DeckInfo? {
        EnteredForever(v, rest, cab);
      } else if a.DeckTimeout? {
        PassedOverForever(v, rest, cab);
        PassedIsUnknown(After(v, rest), cab);
      } else {
        WaitGoesOn(w, a, cab);
        OutcomeFrom(v, rest, cab);
      }
    }
  }

  lemma PassedIsUnknown(w: World, cab: string)
    requires PassedOver(w, cab)
    ensures cab !in w.deck.cabins
  {
  }

  /** In every run from a state in which a cabin has been greeted and is awaited, the cabin is on the books in the end
      if and only if the handler's wait ended with its info message and not with the timeout; and after a timeout it is
      passed over, however long the run goes on. */
  lemma RegistrationOutcome(w: World, actions: seq<Action>, cab: string)
    requires Reachable(w) && Runs(w, actions) && w.awaiting == Some(cab)
    ensures cab in After(w, actions).deck.cabins <==> Answer(actions) == Some(DeckInfo)
    ensures Answer(actions) == Some(DeckTimeout) ==> PassedOver(After(w, actions), cab)
    ensures Answer(actions) == None ==> After(w, actions).awaiting == Some(cab)
  {
    hide Reachable, Inv, Runs, After, PassedOver, Answer;
    ReachableInv(w);
    OutcomeFrom(w, actions, cab);
  }

  // ----- The handler and the steps -----

  /** A message the deck takes from a cabin in its outer loop has the effect of `OnCabin`. For a registration it is the
      effect of the handler up to its inner receive, which the step leaves awaited. */
  lemma OuterLoopIsHandler(w: World, cab: string)
    requires Enabled(w, DeckCabin(cab)) && cab in w.cabins && w.cabins[cab].outbox != []
    ensures var p, v := w.cabins[cab], Next(w, DeckCabin(cab));
            var r := OnCabin(w.deck, Prefixed(cab, p.outbox[0]), None);
            && v.deck == r.deck && v.down == w.down + Routed(r.toServer, w.serverId)
            && cab in v.cabins && v.cabins[cab].inbox == p.inbox + Routed(r.toCabins, cab)
            && v.cabins[cab].outbox == p.outbox[1..]
            && v.awaiting == if r.toCabins != [] then Some(cab) else None
  {
    hide Enabled;
    assert Routed([], w.serverId) == [] && Routed([], cab) == [];
    assert w.down + [] == w.down && w.cabins[cab].inbox + [] == w.cabins[cab].inbox;
    assert w.awaiting.None? by {
      OuterLoopWaitsForNothing(w, cab);
    }
    hide ServiceOf, ToClient, Emissions, Addressee, Admits, Routed, WithClient, With;
  }

  lemma OuterLoopWaitsForNothing(w: World, cab: string)
    requires Enabled(w, DeckCabin(cab))
    ensures w.awaiting.None?
  {
  }

  /** The receipt of the info message, or the timeout, has the effect of the whole handler of the registration on the
      deck's books as they are then. */
  lemma InnerReceiveIsHandler(w: World, cab: string)
    requires Inv(w) && w.awaiting == Some(cab)
    ensures Enabled(w, DeckTimeout)
         && Next(w, DeckTimeout).deck == OnCabin(w.deck, Prefixed(cab, REGISTRATION), None).deck
    ensures Enabled(w, DeckInfo) ==>
              && cab in w.cabins
              && Next(w, DeckInfo).deck
                 == OnCabin(w.deck, Prefixed(cab, REGISTRATION), Some(InfoOf(cab, w.cabins[cab]))).deck
  {
    hide Inv, ServiceOf, AfterInfo, Registered, Enter;
    ServiceOfRegistration(cab);
    AwaitedIsUnknown(w, cab);
    if Enabled(w, DeckInfo) {
      InfoStep(w);
    }
  }
}
