/** What the history of a run means: it only grows, and every text in it was forwarded by a step of the run, from a
    client that was then a member of the cabin. */
module History {
  import opened Client
  import opened ClientSteps
  import opened Deck
  import opened Defines
  import opened Invariant
  import opened Lobby
  import opened Membership
  import opened Relay
  import opened Steps
  import opened World

  /** A state some run leads to. */
  ghost predicate Reachable(w: World) {
    exists serverId, actions :: Runs(Init(serverId), actions) && After(Init(serverId), actions) == w
  }

  lemma ReachableInv(w: World)
    requires Reachable(w)
    ensures Inv(w)
  {
    var serverId, actions :| Runs(Init(serverId), actions) && After(Init(serverId), actions) == w;
    InitHolds(serverId);
    RunKeeps(Init(serverId), actions);
  }

  lemma ReachableCabin(w: World, cab: string)
    requires Reachable(w) && cab in w.cabins
    ensures CabinOk(w.deck, w.awaiting, cab, w.cabins[cab])
    ensures DeckInv(w.deck)
  {
    hide ClientsOk, Deliveries, DeckInv, CabinOk, Reachable, Addressed;
    ReachableInv(w);
  }

  lemma ReachableClient(w: World, c: string)
    requires Reachable(w) && c in w.clients
    ensures ClientOk(w.deck, w.serverId, w.up, w.down, c, w.clients[c])
  {
    hide CabinsOk, Deliveries, Books, ClientOk, Reachable;
    ReachableInv(w);
  }

  lemma {:induction false} RunsConcat(w: World, a: seq<Action>, b: seq<Action>)
    requires Runs(w, a) && Runs(After(w, a), b)
    ensures Runs(w, a + b) && After(w, a + b) == After(After(w, a), b)
    decreases |a|
  {
    hide Enabled, Next;
    if a == [] {
      assert a + b == b;
    } else {
      assert (a + b)[1..] == a[1..] + b;
      RunsConcat(Next(w, a[0]), a[1..], b);
    }
  }

  /** What a run reaches from a reachable state is reachable. */
  lemma ReachableAfter(w: World, actions: seq<Action>)
    requires Reachable(w) && Runs(w, actions)
    ensures Reachable(After(w, actions))
  {
    hide Enabled, Next, Runs, After;
    var serverId, before :| Runs(Init(serverId), before) && After(Init(serverId), before) == w;
    RunsConcat(Init(serverId), before, actions);
  }

  // ----- The history only grows -----

  ghost predicate CabinHistoryGrows(p: CabinProc, q: CabinProc) {
    && p.notices <= q.notices
    && p.submitters <= q.submitters
    && p.broadcasts <= q.broadcasts
    && p.settled <= q.settled
  }

  ghost predicate ClientHistoryGrows(p: ClientProc, q: ClientProc) {
    && q.username == p.username
    && p.received <= q.received
    && p.submitted <= q.submitted
    && p.consumed <= q.consumed
    && p.emitted <= q.emitted
  }

  ghost predicate HistoryGrows(w: World, v: World) {
    && w.cabins.Keys <= v.cabins.Keys
    && w.clients.Keys <= v.clients.Keys
    && (forall cab :: cab in w.cabins ==> CabinHistoryGrows(w.cabins[cab], v.cabins[cab]))
    && (forall c :: c in w.clients ==> ClientHistoryGrows(w.clients[c], v.clients[c]))
  }

  lemma CrewGrows(w: World, order: seq<string>)
    requires w.up != [] && Enumerates(order, w.deck.cabins.Keys)
    ensures HistoryGrows(w, AfterCrew(w, order))
  {
    hide OnServerInput, Routed, NoticesOf, ToClient, Members, CrewRequest, Enumerates;
  }

  lemma CabinGrows(w: World, cab: string)
    requires cab in w.cabins && w.cabins[cab].outbox != []
    ensures HistoryGrows(w, AfterCabin(w, cab))
  {
    hide PassOn, Routed, ToClient, ServiceOf, Greet, Addressee, Admits;
  }

  lemma ClientStepGrows(w: World, a: Action)
    requires Enabled(w, a)
    requires a.SpawnClient? || a.UserLine? || a.ClientTurn? || a.RelayUp? || a.RelayDown?
    ensures HistoryGrows(w, Next(w, a))
  {
    hide AfterCrew, AfterCabin, AfterInfo, CabinNext, Routed, LineMsg, RunsAfter, CabinHistoryGrows;
    CabinsKept(w.cabins);
  }

  lemma CabinsKept(cabins: map<string, CabinProc>)
    ensures forall cab :: cab in cabins ==> CabinHistoryGrows(cabins[cab], cabins[cab])
  {
  }

  lemma CabinStepGrows(w: World, a: Action)
    requires Enabled(w, a)
    requires a.SpawnCabin? || a.CabinTurn? || a.DeckInfo? || a.DeckTimeout?
    ensures HistoryGrows(w, Next(w, a))
  {
    hide AfterCrew, AfterCabin, ClientSays, ClientNext, Routed, Enter, OrderOf, UsersAfter, SendAll, Accepts,
      ClientHistoryGrows;
    ClientsKept(w.clients);
  }

  lemma ClientsKept(clients: map<string, ClientProc>)
    ensures forall c :: c in clients ==> ClientHistoryGrows(clients[c], clients[c])
  {
  }

  lemma StepGrows(w: World, a: Action)
    requires Enabled(w, a)
    ensures HistoryGrows(w, Next(w, a))
  {
    hide AfterCrew, AfterCabin, AfterInfo, ClientSays, ClientNext, CabinNext, HistoryGrows, CrewRequest;
    if a.DeckCrew? {
      CrewGrows(w, a.order);
    } else if a.DeckCabin? {
      CabinGrows(w, a.cab);
    } else if a.SpawnClient? || a.UserLine? || a.ClientTurn? || a.RelayUp? || a.RelayDown? {
      ClientStepGrows(w, a);
    } else {
      CabinStepGrows(w, a);
    }
  }

  lemma {:induction false} RunGrows(w: World, actions: seq<Action>)
    requires Runs(w, actions)
    ensures HistoryGrows(w, After(w, actions))
    decreases |actions|
  {
    hide Enabled, Next;
    if actions == [] {
    } else {
      StepGrows(w, actions[0]);
      RunGrows(Next(w, actions[0]), actions[1..]);
    }
  }

  // ----- What enters it -----

  /** The client whose message the deck handles next, and its request. */
  ghost function Sender(w: World): string
    requires w.up != [] && w.up[0] != []
  {
    w.up[0][0]
  }

  ghost function RequestAt(w: World): Request
    requires w.up != []
  {
    CrewRequest(DeckInput(w, w.up[0]))
  }

  /** The deck handles the text of a client that is then online and recorded in the cabin; the text is noted
      with the names of all who are, and sent to the cabin. */
  ghost predicate Forwards(w: World, v: World, cab: string) {
    && w.up != [] && w.up[0] != [] && RequestAt(w).Say?
    && cab in w.cabins && cab in v.cabins
    && var d, c, p, q := w.deck, Sender(w), w.cabins[cab], v.cabins[cab];
       && c in Members(d, cab)
       && q.notices == p.notices + [Notice(d.clients[c].username, RequestAt(w).text, Names(d, cab))]
       && q.submitters == p.submitters + [c]
       && q.inbox == p.inbox + [["TEXT", d.clients[c].username, RequestAt(w).text]]
       && Members(v.deck, cab) == Members(d, cab)
  }

  ghost predicate NotesKept(w: World, v: World, cab: string) {
    && cab in w.cabins && cab in v.cabins
    && v.cabins[cab].notices == w.cabins[cab].notices
    && v.cabins[cab].submitters == w.cabins[cab].submitters
  }

  lemma OnlyCrewNotes(w: World, a: Action, cab: string)
    requires Enabled(w, a) && cab in w.cabins && !a.DeckCrew?
    ensures NotesKept(w, Next(w, a), cab)
  {
    hide PassOn, Routed, Enter, ServiceOf, Addressee, Admits, ToClient, OrderOf, UsersAfter, SendAll, Accepts, LineMsg,
      RunsAfter;
  }

  lemma TextReaches(cab: string, username: string, text: string)
    ensures Routed([[cab, "TEXT", username, text]], cab) == [["TEXT", username, text]]
  {
    var m := ["TEXT", username, text];
    assert [cab, "TEXT", username, text] == Prefixed(cab, m);
    RoutedPrefixed(cab, m, cab);
  }

  /** The deck forwards the text of a client to the cabin it is recorded in. */
  lemma TextForwards(w: World, order: seq<string>, cab: string)
    requires Inv(w) && Enabled(w, DeckCrew(order)) && cab in w.cabins
    requires w.up != [] && w.up[0] != [] && RequestAt(w).Say?
    requires Sender(w) in w.deck.clients && w.deck.clients[Sender(w)].cabin == cab
    ensures Forwards(w, Next(w, DeckCrew(order)), cab)
  {
    hide ClientsOk, CabinsOk, Deliveries, OnServerInput, DeckInv, Affects, Extends, Routed, CrewRequest, Members, Names,
      Enroll, LeaveCabin, JoinCabin, QuitShip, ShowCabin, ShowAllCabins, ClientAfterCrew;
    CrewStep(w, order);
    var d, c := w.deck, Sender(w);
    TextReaches(cab, d.clients[c].username, RequestAt(w).text);
    assert OnServerInput(d, DeckInput(w, w.up[0]), order) == ForwardText(d, c, RequestAt(w).text);
    MemberIf(d, c, cab);
  }

  lemma CrewForwards(w: World, order: seq<string>, cab: string)
    requires Inv(w) && Enabled(w, DeckCrew(order)) && cab in w.cabins
    ensures var v := Next(w, DeckCrew(order)); NotesKept(w, v, cab) || Forwards(w, v, cab)
  {
    hide Inv, OnServerInput, Routed, CrewRequest, Members, Names, ClientAfterCrew, Forwards, ToClient,
      DeckInput, Enumerates;
    QueuedHasSender(w);
    var c, request := Sender(w), RequestAt(w);
    if request.Say? && c in w.deck.clients && w.deck.clients[c].cabin == cab {
      TextForwards(w, order, cab);
    } else {
      assert NoticesOf(w.deck, c, request, cab) == [];
      assert DeckInput(w, w.up[0])[1] == c by {
        SecondFrame(w);
      }
    }
  }

  lemma QueuedHasSender(w: World)
    requires Inv(w) && w.up != []
    ensures w.up[0] != [] && w.up[0][0] in w.clients
  {
    hide DeckInv, CabinsOk, ClientsOk, Deliveries;
  }

  lemma SecondFrame(w: World)
    requires w.up != [] && w.up[0] != []
    ensures |DeckInput(w, w.up[0])| >= 2 && DeckInput(w, w.up[0])[1] == Sender(w)
  {
  }

  lemma MemberIf(d: Deck, c: string, cab: string)
    requires c in d.clients && d.clients[c].online && d.clients[c].cabin == cab
    ensures c in Members(d, cab)
  {
  }

  /** The next message the deck handles is the text of a client recorded in the cabin. */
  ghost predicate HandlesText(w: World, cab: string) {
    && w.up != [] && w.up[0] != [] && RequestAt(w).Say?
    && Sender(w) in w.deck.clients && w.deck.clients[Sender(w)].cabin == cab
  }

  /** A text enters a cabin's history exactly when the deck handles the text of a client recorded there, and then it is
      forwarded to the cabin. */
  lemma NoticesRecordForwarding(w: World, a: Action, cab: string)
    requires Inv(w) && Enabled(w, a) && cab in w.cabins
    ensures Forwards(w, Next(w, a), cab) <==> a.DeckCrew? && HandlesText(w, cab)
    ensures !Forwards(w, Next(w, a), cab) ==> NotesKept(w, Next(w, a), cab)
  {
    if a.DeckCrew? {
      hide Inv, AfterCrew, AfterCabin, CrewRequest;
      CrewForwards(w, a.order, cab);
      if HandlesText(w, cab) {
        TextForwards(w, a.order, cab);
      }
    } else {
      hide Inv, Next, Enabled, CrewRequest;
      OnlyCrewNotes(w, a, cab);
    }
  }

  // ----- Forwardings in a run -----

  predicate IsText(m: Frames, text: string) {
    |m| >= 3 && m[0] == "CREW" && m[1] == "TEXT" && m[2] == text
  }

  /** The message the deck handles next is the next one its sender submitted, a text, and the deck has the sender on
      its books under the name the sender gave itself. */
  ghost predicate Submitted(w: World)
    requires w.up != [] && w.up[0] != [] && RequestAt(w).Say? && Sender(w) in w.deck.clients
  {
    && Sender(w) in w.clients
    && var p := w.clients[Sender(w)];
       && |p.consumed| < |p.submitted| && IsText(p.submitted[|p.consumed|], RequestAt(w).text)
       && w.deck.clients[Sender(w)].username == p.username
  }

  lemma TextWasSubmitted(w: World)
    requires Inv(w) && w.up != [] && w.up[0] != [] && RequestAt(w).Say? && Sender(w) in w.deck.clients
    ensures Submitted(w)
  {
    hide CabinsOk, Deliveries, DeckInv, CrewRequest, Greeted, Downstream;
    var c := Sender(w);
    assert c in w.clients && ClientOk(w.deck, w.serverId, w.up, w.down, c, w.clients[c]);
    HeadMessage(w.deck, w.serverId, w.up, c, w.clients[c]);
    hide Inv;
    SayIsText(w.serverId, c, w.clients[c].submitted[|w.clients[c].consumed|]);
  }

  /** The message of a text request is a text. */
  lemma SayIsText(s: string, c: string, m: Frames)
    requires CrewRequest(Prefixed(s, Prefixed(c, m))).Say?
    ensures IsText(m, CrewRequest(Prefixed(s, Prefixed(c, m))).text)
  {
    var input := Prefixed(s, Prefixed(c, m));
    assert |m| >= 2 ==> input[2] == m[0] && input[3] == m[1];
    assert |m| >= 3 ==> input[4] == m[2];
  }

  /** Step `i` of the run forwards the `k`-th text of the cabin: the text is the sender's next message; the sender is
      then online and recorded in the cabin; and the text is noted with its name and the names of all who are. */
  ghost predicate ForwardedAt(w: World, actions: seq<Action>, cab: string, k: nat, i: nat)
    requires Runs(w, actions)
  {
    && i < |actions| && Runs(w, actions[..i])
    && var u, v := After(w, actions[..i]), After(w, actions);
       && Enabled(u, actions[i]) && actions[i].DeckCrew?
       && cab in u.cabins && |u.cabins[cab].notices| == k && Forwards(u, Next(u, actions[i]), cab)
       && Submitted(u) && Noted(u, v, cab, k)
  }

  /** The `k`-th text of the cabin is the one the deck is about to handle. */
  ghost predicate Noted(u: World, v: World, cab: string, k: nat)
    requires u.up != [] && u.up[0] != [] && RequestAt(u).Say? && Sender(u) in u.deck.clients
  {
    && cab in v.cabins && k < |v.cabins[cab].notices| && k < |v.cabins[cab].submitters|
    && v.cabins[cab].notices[k]
       == Notice(u.deck.clients[Sender(u)].username, RequestAt(u).text, Names(u.deck, cab))
    && v.cabins[cab].submitters[k] == Sender(u)
  }

  lemma NotedFrom(u: World, next: World, v: World, cab: string)
    requires Forwards(u, next, cab) && HistoryGrows(next, v)
    requires |u.cabins[cab].submitters| == |u.cabins[cab].notices|
    ensures Noted(u, v, cab, |u.cabins[cab].notices|)
  {
    hide CrewRequest, Members, Names;
    assert CabinHistoryGrows(next.cabins[cab], v.cabins[cab]);
  }

  lemma FirstForwards(w: World, actions: seq<Action>, cab: string)
    requires Inv(w) && Runs(w, actions) && actions != [] && actions[0].DeckCrew?
    requires cab in w.cabins && Forwards(w, Next(w, actions[0]), cab)
    ensures ForwardedAt(w, actions, cab, |w.cabins[cab].notices|, 0)
  {
    hide Inv, Enabled, Next, Forwards, Noted, Submitted, CrewRequest;
    assert actions[..0] == [];
    RunGrows(Next(w, actions[0]), actions[1..]);
    SubmittersMatch(w, cab);
    NotedFrom(w, Next(w, actions[0]), After(w, actions), cab);
    ForwardsText(w, Next(w, actions[0]), cab);
    TextWasSubmitted(w);
  }

  lemma ForwardsText(w: World, v: World, cab: string)
    requires Forwards(w, v, cab)
    ensures w.up != [] && w.up[0] != [] && RequestAt(w).Say? && Sender(w) in w.deck.clients
  {
    hide CrewRequest;
  }

  lemma SubmittersMatch(w: World, cab: string)
    requires Inv(w) && cab in w.cabins
    ensures |w.cabins[cab].submitters| == |w.cabins[cab].notices|
  {
    hide DeckInv, ClientsOk, Deliveries, Ledgered, Known;
    assert CabinOk(w.deck, w.awaiting, cab, w.cabins[cab]);
  }

  lemma LaterForwards(w: World, actions: seq<Action>, cab: string, k: nat, i: nat)
    requires Runs(w, actions) && actions != []
    requires ForwardedAt(Next(w, actions[0]), actions[1..], cab, k, i)
    ensures ForwardedAt(w, actions, cab, k, i + 1)
  {
    hide Enabled, Next, Forwards, Noted, Submitted;
    assert actions[..i + 1][1..] == actions[1..][..i];
  }

  lemma NewCabinHasNoHistory(w: World, a: Action, cab: string)
    requires Enabled(w, a) && cab in Next(w, a).cabins && cab !in w.cabins
    ensures NoHistory(Next(w, a).cabins[cab])
  {
    hide OnServerInput, PassOn, Routed, Enter;
  }

  ghost predicate WasForwarded(w: World, actions: seq<Action>, cab: string, k: nat)
    requires Runs(w, actions)
  {
    exists i :: ForwardedAt(w, actions, cab, k, i)
  }

  /** Every text of a cabin was forwarded by some step of the run. */
  lemma {:induction false} EveryTextWasForwarded(w: World, actions: seq<Action>, cab: string, k: nat)
    requires Inv(w) && Runs(w, actions)
    requires cab in After(w, actions).cabins && k < |After(w, actions).cabins[cab].notices|
    requires cab in w.cabins ==> |w.cabins[cab].notices| <= k
    ensures WasForwarded(w, actions, cab, k)
    decreases |actions|
  {
    hide Inv, Enabled, Next, ForwardedAt, CrewRequest, Members, Names;
    if actions == [] {
    } else {
      var a := actions[0];
      var v := Next(w, a);
      StepKeeps(w, a);
      if cab in v.cabins && k < |v.cabins[cab].notices| {
        if cab !in w.cabins {
          NewCabinHasNoHistory(w, a, cab);
        }
        NoticesRecordForwarding(w, a, cab);
        FirstForwards(w, actions, cab);
      } else {
        EveryTextWasForwarded(v, actions[1..], cab, k);
        var i :| ForwardedAt(v, actions[1..], cab, k, i);
        LaterForwards(w, actions, cab, k, i);
      }
    }
  }
}
