/** From the keyboard to the deck: what a client submits for the lines its user types, when that stops it, and what
    each line makes the deck do. */
module Typing {
  import opened Client
  import opened ClientSteps
  import opened Deck
  import opened Defines
  import opened Discipline
  import opened History
  import opened Invariant
  import opened Membership
  import opened Protocol
  import opened Relay
  import opened Rosters
  import opened Shipdeck
  import opened Steps
  import opened World

  // ----- One line -----

  /** A line can be passed on unless it is empty or just `/join`. One that starts with a slash is a command, and every
      other one a text; `/join` is split from what stands behind its sixth character. `/quit` stops the client, and so
      does a text the socket refused. */
  lemma LineFrames(line: string, accepted: bool)
    ensures Typeable(line) <==> line != "" && line != "/join"
    ensures Typeable(line) ==>
              && (IsCommand(line) <==> line[0] == '/')
              && LineMsg(line) == (if line[0] != '/' then ["CREW", "TEXT", line]
                                   else if |line| >= 6 && line[..5] == "/join"
                                        then ["CREW", "COMMAND", "/join", line[6..]]
                                   else ["CREW", "COMMAND", line])
              && (RunsAfter(line, accepted) <==> line != "/quit" && (line[0] == '/' || accepted))
  {
    if StartsWithJoin(line) {
      assert line == line[..5] + line[5..];
      assert line[0] == line[..5][0] == '/';
    }
  }

  /** What a user types to join a cabin arrives as that cabin's name. */
  lemma JoinFrames(name: string)
    ensures Typeable("/join " + name)
    ensures LineMsg("/join " + name) == ["CREW", "COMMAND", "/join", name]
  {
    var line := "/join " + name;
    assert line[..5] == "/join" && line[6..] == name && line[0] == '/';
  }

  // ----- All lines of a run -----

  predicate Types(a: Action, c: string) {
    a.UserLine? && a.c == c
  }

  /** The messages for the lines of a client that its socket took. */
  function Said(actions: seq<Action>, c: string): seq<Frames> {
    if actions == [] then []
    else
      var a := actions[0];
      (if Types(a, c) && a.accepted && Typeable(a.line) then [LineMsg(a.line)] else []) + Said(actions[1..], c)
  }

  /** The client types `/quit`, or a text that its socket refuses. */
  predicate Stops(a: Action, c: string) {
    Types(a, c) && (a.line == "/quit" || (a.line != "" && a.line[0] != '/' && !a.accepted))
  }

  ghost predicate StopsIn(actions: seq<Action>, c: string) {
    exists i :: 0 <= i < |actions| && Stops(actions[i], c)
  }

  /** A step that neither makes the client say anything nor stops it. */
  ghost predicate KeepsClient(w: World, v: World, c: string)
    requires c in w.clients
  {
    && c in v.clients && v.clients[c].submitted == w.clients[c].submitted
    && (v.clients[c].phase.Stopped? <==> w.clients[c].phase.Stopped?)
  }

  lemma CrewKeepsClient(w: World, order: seq<string>, c: string)
    requires w.up != [] && Enumerates(order, w.deck.cabins.Keys) && c in w.clients
    ensures KeepsClient(w, AfterCrew(w, order), c)
  {
    hide OnServerInput, Routed, NoticesOf, ToClient, Members, CrewRequest, Enumerates;
  }

  lemma CabinKeepsClient(w: World, cab: string, c: string)
    requires cab in w.cabins && w.cabins[cab].outbox != [] && c in w.clients
    ensures KeepsClient(w, AfterCabin(w, cab), c)
  {
    hide PassOn, Routed, ToClient, ServiceOf, Greet, Addressee, Admits;
  }

  lemma TurnKeepsClient(w: World, c: string)
    requires Inv(w) && Enabled(w, ClientTurn(c)) && c in w.clients
    ensures KeepsClient(w, Next(w, ClientTurn(c)), c)
  {
    hide DeckInv, CabinsOk, Deliveries, Disciplined, Upstream, Downstream, Recorded, Greeted;
    assert ClientOk(w.deck, w.serverId, w.up, w.down, c, w.clients[c]);
    hide ClientOk;
    ClientTurnOk(w.deck, w.serverId, w.up, w.down, c, w.clients[c]);
  }

  lemma OtherKeepsClient(w: World, a: Action, c: string)
    requires Enabled(w, a) && c in w.clients && !Types(a, c) && !a.DeckCrew? && !a.DeckCabin? && a != ClientTurn(c)
    ensures KeepsClient(w, Next(w, a), c)
  {
    hide AfterCrew, AfterCabin, CabinNext, ClientNext, ClientSays, Routed, Enter, Enumerates, Typeable, IsCommand;
  }

  lemma SilentStep(w: World, a: Action, c: string)
    requires Inv(w) && Enabled(w, a) && c in w.clients && !Types(a, c)
    ensures KeepsClient(w, Next(w, a), c)
  {
    hide Inv, KeepsClient, AfterCrew, AfterCabin, AfterInfo, CabinNext, ClientNext, ClientSays, Routed;
    match a
    case DeckCrew(order) => CrewKeepsClient(w, order, c);
    case DeckCabin(cab) => CabinKeepsClient(w, cab, c);
    case _ =>
      if a == ClientTurn(c) {
        TurnKeepsClient(w, c);
      } else {
        OtherKeepsClient(w, a, c);
      }
  }

  /** What one step makes of the client: it says what its user typed, or nothing, and it stops or not. */
  ghost predicate StepOfClient(w: World, v: World, a: Action, c: string)
    requires c in w.clients
  {
    && c in v.clients
    && v.clients[c].submitted == w.clients[c].submitted + Said([a], c)
    && (v.clients[c].phase.Stopped? <==> w.clients[c].phase.Stopped? || Stops(a, c))
    && (Types(a, c) && !a.accepted ==> v.clients[c].phase.Stopped?)
  }

  lemma LineStep(w: World, c: string, line: string, accepted: bool)
    requires Enabled(w, UserLine(c, line, accepted))
    ensures c in w.clients && StepOfClient(w, Next(w, UserLine(c, line, accepted)), UserLine(c, line, accepted), c)
  {
    var a := UserLine(c, line, accepted);
    LineFrames(line, accepted);
    assert Said([a], c) == if accepted then [LineMsg(line)] else [] by {
      assert [a][1..] == [];
    }
    hide LineMsg, RunsAfter, IsCommand, Typeable, Said;
  }

  lemma OneStepOfClient(w: World, a: Action, c: string)
    requires Inv(w) && Enabled(w, a) && c in w.clients
    ensures StepOfClient(w, Next(w, a), a, c)
  {
    hide Inv, Enabled, Next;
    if Types(a, c) {
      LineStep(w, c, a.line, a.accepted);
    } else {
      SilentStep(w, a, c);
      assert Said([a], c) == [] by {
        assert [a][1..] == [];
      }
    }
  }

  /** What a run makes of the client. */
  ghost predicate RunOf(w: World, v: World, actions: seq<Action>, c: string)
    requires c in w.clients
  {
    && c in v.clients
    && v.clients[c].submitted == w.clients[c].submitted + Said(actions, c)
    && (v.clients[c].phase.Stopped? <==> w.clients[c].phase.Stopped? || StopsIn(actions, c))
    && (!v.clients[c].phase.Stopped? ==> AllTaken(actions, c))
  }

  /** The socket took every line of the client. */
  ghost predicate AllTaken(actions: seq<Action>, c: string) {
    forall i :: 0 <= i < |actions| && Types(actions[i], c) ==> actions[i].accepted
  }

  lemma {:induction false} RunOfClient(w: World, actions: seq<Action>, c: string)
    requires Inv(w) && Runs(w, actions) && c in w.clients
    ensures RunOf(w, After(w, actions), actions, c)
    decreases |actions|
  {
    hide Inv, Enabled, Next, RunOf, StepOfClient;
    if actions == [] {
      RunOfNothing(w, c);
    } else {
      var a, rest := actions[0], actions[1..];
      var v := Next(w, a);
      StepKeeps(w, a);
      OneStepOfClient(w, a, c);
      assert c in v.clients by {
        StepHasClient(w, v, a, c);
      }
      RunOfClient(v, rest, c);
      RunAfterStep(w, v, After(v, rest), actions, c);
    }
  }

  lemma RunOfNothing(w: World, c: string)
    requires c in w.clients
    ensures RunOf(w, w, [], c)
  {
    assert w.clients[c].submitted + [] == w.clients[c].submitted;
  }

  lemma StepHasClient(w: World, v: World, a: Action, c: string)
    requires c in w.clients && StepOfClient(w, v, a, c)
    ensures c in v.clients
  {
  }

  lemma RunAfterStep(w: World, v: World, u: World, actions: seq<Action>, c: string)
    requires c in w.clients && c in v.clients && actions != []
    requires StepOfClient(w, v, actions[0], c) && RunOf(v, u, actions[1..], c)
    ensures RunOf(w, u, actions, c)
  {
    hide Types, Stops, Said, StopsIn;
    SaidFirst(actions, c, w.clients[c].submitted);
    StopsFirst(actions, c);
    assert forall i :: 0 < i < |actions| ==> actions[i] == actions[1..][i - 1];
  }

  lemma SaidFirst(actions: seq<Action>, c: string, before: seq<Frames>)
    requires actions != []
    ensures before + Said([actions[0]], c) + Said(actions[1..], c) == before + Said(actions, c)
  {
    assert [actions[0]][1..] == [];
    hide Typeable, LineMsg, Types;
  }

  lemma StopsFirst(actions: seq<Action>, c: string)
    requires actions != []
    ensures StopsIn(actions, c) <==> Stops(actions[0], c) || StopsIn(actions[1..], c)
  {
    hide Stops;
    assert forall i :: 0 < i < |actions| ==> actions[i] == actions[1..][i - 1];
    assert forall i :: 0 <= i < |actions| - 1 ==> actions[1..][i] == actions[i + 1];
  }

  /** Over every run: a client has submitted, behind what it had before, the messages for the lines its socket took, in
      order. It stops exactly if its user types `/quit` or its socket refuses a text, and as long as it has not, its
      socket took every line: nothing it handled is lost. */
  lemma ClientOfRun(w: World, actions: seq<Action>, c: string)
    requires Reachable(w) && Runs(w, actions) && c in w.clients
    ensures var v := After(w, actions);
            && c in v.clients
            && v.clients[c].submitted == w.clients[c].submitted + Said(actions, c)
            && (v.clients[c].phase.Stopped?
                <==> w.clients[c].phase.Stopped?
                     || exists i :: 0 <= i < |actions| && Stops(actions[i], c))
            && (!v.clients[c].phase.Stopped? ==>
                  forall i :: 0 <= i < |actions| && Types(actions[i], c) ==> actions[i].accepted)
  {
    hide Reachable, Inv, Runs, After, Said, Stops, Types;
    ReachableInv(w);
    RunOfClient(w, actions, c);
  }

  // ----- What a line does -----

  /** What a line of a client on the books makes the deck do. */
  ghost predicate LineDoes(d: Deck, c: string, line: string, order: seq<string>,
                           e: Deck, answers: seq<Frames>, orders: seq<Frames>)
    requires c in d.clients && Enumerates(order, d.cabins.Keys) && line != "" && line != "/join"
  {
    if line[0] != '/' then
      && e == d && answers == []
      && orders == [[d.clients[c].cabin, "TEXT", d.clients[c].username, line]]
    else if |line| >= 6 && line[..5] == "/join" then WordDoes(d, c, "/join", [line[6..]], order, e, answers, orders)
    else WordDoes(d, c, line, [], order, e, answers, orders)
  }

  /** The step has the effect of the line, and its answers and orders are under way. */
  ghost predicate TakesEffect(w: World, v: World, c: string, line: string, order: seq<string>) {
    && c in w.deck.clients && w.deck.clients[c].online
    && Enumerates(order, w.deck.cabins.Keys) && line != "" && line != "/join"
    && exists answers, orders :: LineDoes(w.deck, c, line, order, v.deck, answers, orders)
                              && Reaches(w, v, c, answers, orders)
  }

  lemma TextHandled(w: World, c: string, line: string, order: seq<string>)
    requires Reachable(w) && Enabled(w, DeckCrew(order)) && Enumerates(order, w.deck.cabins.Keys)
    requires w.up != [] && w.up[0] == [c, "CREW", "TEXT", line] && c in w.deck.clients && w.deck.clients[c].online
    requires line != "" && line[0] != '/'
    ensures TakesEffect(w, Next(w, DeckCrew(order)), c, line, order)
  {
    hide Reachable, Enabled, Next, Reaches, Enumerates;
    var me, v := w.deck.clients[c], Next(w, DeckCrew(order));
    TextReplies(w, order, c, line);
    assert LineDoes(w.deck, c, line, order, v.deck, [], [[me.cabin, "TEXT", me.username, line]]);
  }

  lemma CommandHandled(w: World, c: string, line: string, word: string, args: Frames, order: seq<string>)
    requires Reachable(w) && Enabled(w, DeckCrew(order)) && Enumerates(order, w.deck.cabins.Keys)
    requires w.up != [] && w.up[0] == [c, "CREW", "COMMAND", word] + args
    requires c in w.deck.clients && w.deck.clients[c].online
    requires line != "" && line != "/join" && line[0] == '/'
    requires if |line| >= 6 && line[..5] == "/join" then word == "/join" && args == [line[6..]]
             else word == line && args == []
    ensures TakesEffect(w, Next(w, DeckCrew(order)), c, line, order)
  {
    hide Reachable, Enabled, Next, Reaches, Enumerates, WordDoes;
    var v := Next(w, DeckCrew(order));
    CommandReplies(w, order, c, word, args);
    var answers, orders :| WordDoes(w.deck, c, word, args, order, v.deck, answers, orders)
                        && Reaches(w, v, c, answers, orders);
    assert LineDoes(w.deck, c, line, order, v.deck, answers, orders);
  }

  lemma LineHandled(w: World, c: string, line: string, order: seq<string>)
    requires Reachable(w) && Enabled(w, DeckCrew(order)) && Enumerates(order, w.deck.cabins.Keys) && Typeable(line)
    requires w.up != [] && w.up[0] == Prefixed(c, LineMsg(line)) && c in w.deck.clients
    ensures TakesEffect(w, Next(w, DeckCrew(order)), c, line, order)
  {
    LineFrames(line, true);
    hide Reachable, Enabled, Next, Enumerates, Typeable, LineMsg, TakesEffect;
    SenderOnline(w);
    if line[0] != '/' {
      TextHandled(w, c, line, order);
    } else if |line| >= 6 && line[..5] == "/join" {
      CommandHandled(w, c, line, "/join", [line[6..]], order);
    } else {
      CommandHandled(w, c, line, line, [], order);
    }
  }

  lemma KnownIfHandled(w: World, c: string)
    requires Reachable(w) && c in w.clients && w.clients[c].consumed != []
    ensures c in w.deck.clients
  {
    hide Reachable, Disciplined, Upstream, Downstream, Greeted;
    ReachableClient(w, c);
  }

  lemma LineInQueue(u: World, v: World, c: string, before: seq<Frames>, m: Frames)
    requires Reachable(v) && HistoryGrows(u, v) && c in u.clients && u.clients[c].submitted == before + [m]
    requires v.up != [] && v.up[0] != [] && v.up[0][0] == c && c in v.clients
    requires |v.clients[c].consumed| == |before|
    ensures v.up[0] == Prefixed(c, m)
  {
    hide Reachable, Disciplined, Downstream, Greeted, Recorded, Routed, CabinHistoryGrows;
    ReachableClient(v, c);
    HeadIsNext(v.up, c, v.clients[c]);
    assert u.clients[c].submitted <= v.clients[c].submitted;
    assert v.clients[c].submitted[|before|] == u.clients[c].submitted[|before|] == m;
  }

  lemma AlwaysSubmitted(w: World, c: string)
    requires Reachable(w) && c in w.clients
    ensures w.clients[c].submitted != []
  {
    hide Reachable, Upstream, Downstream, Greeted, Recorded;
    ReachableClient(w, c);
  }

  /** The line's message is the next one of the client, and the client is on the books. */
  lemma LineIsNext(w: World, c: string, line: string, actions: seq<Action>)
    requires Reachable(w) && Enabled(w, UserLine(c, line, true)) && c in w.clients && Typeable(line)
    requires Runs(Next(w, UserLine(c, line, true)), actions)
    requires var v := After(Next(w, UserLine(c, line, true)), actions);
             && v.up != [] && v.up[0] != [] && v.up[0][0] == c
             && c in v.clients && |v.clients[c].consumed| == |w.clients[c].submitted|
    ensures var v := After(Next(w, UserLine(c, line, true)), actions);
            Reachable(v) && v.up[0] == Prefixed(c, LineMsg(line)) && c in v.deck.clients
  {
    var a := UserLine(c, line, true);
    var u := Next(w, a);
    var v := After(u, actions);
    assert c in u.clients && u.clients[c].submitted == w.clients[c].submitted + [LineMsg(line)];
    hide Reachable, Enabled, Next, Typeable, LineMsg, HistoryGrows;
    assert [a][1..] == [];
    assert Runs(w, [a]) && After(w, [a]) == u;
    hide Runs, After;
    ReachableAfter(w, [a]);
    ReachableAfter(u, actions);
    AlwaysSubmitted(w, c);
    RunGrows(u, actions);
    LineInQueue(u, v, c, w.clients[c].submitted, LineMsg(line));
    KnownIfHandled(v, c);
  }

  /** From the keyboard to the deck, whatever else happens in between: when the deck has handled what the client
      submitted before a line, the client's next message is the line's, on literally these frames, and handling it has
      the effect of the line. */
  lemma TypedLineTakesEffect(w: World, c: string, line: string, actions: seq<Action>, order: seq<string>)
    requires Reachable(w) && Enabled(w, UserLine(c, line, true)) && c in w.clients
    requires Runs(Next(w, UserLine(c, line, true)), actions)
    requires var v := After(Next(w, UserLine(c, line, true)), actions);
             && v.up != [] && v.up[0] != [] && v.up[0][0] == c
             && c in v.clients && |v.clients[c].consumed| == |w.clients[c].submitted|
             && Enabled(v, DeckCrew(order)) && Enumerates(order, v.deck.cabins.Keys)
    ensures line != "" && line != "/join"
    ensures var v := After(Next(w, UserLine(c, line, true)), actions);
            && v.up[0] == (if line[0] != '/' then [c, "CREW", "TEXT", line]
                           else if |line| >= 6 && line[..5] == "/join" then [c, "CREW", "COMMAND", "/join", line[6..]]
                           else [c, "CREW", "COMMAND", line])
            && TakesEffect(v, Next(v, DeckCrew(order)), c, line, order)
  {
    assert Typeable(line);
    LineFrames(line, true);
    hide Reachable, Enabled, Next, Runs, After, Typeable, LineMsg, TakesEffect, Enumerates;
    LineIsNext(w, c, line, actions);
    LineHandled(After(Next(w, UserLine(c, line, true)), actions), c, line, order);
  }

  // ----- Every line can take effect -----

  /** When nothing is under way to the deck, what a client types can be the next message the deck handles. */
  lemma LineQueued(w: World, c: string, line: string, unshared: bool) returns (v: World)
    requires ReachableAs(w, unshared) && w.up == [] && c in w.clients && w.clients[c].phase.Active?
    requires w.clients[c].outbox == [] && Typeable(line)
    ensures ReachableAs(v, unshared) && v.deck == w.deck && v.cabins == w.cabins && v.serverId == w.serverId
    ensures v.up == [Prefixed(c, LineMsg(line))] && v.clients.Keys == w.clients.Keys
    ensures v.clients[c].consumed == w.clients[c].consumed
  {
    hide ReachableAs, Prefixed, Typeable, IsCommand, LineMsg;
    QuietStepReachable(w, UserLine(c, line, true), unshared);
    v := Next(w, UserLine(c, line, true));
    QuietStepReachable(v, RelayUp(c), unshared);
    v := Next(v, RelayUp(c));
  }

  lemma ActiveIsKnown(w: World, c: string)
    requires Reachable(w) && c in w.clients && w.clients[c].phase.Active?
    ensures c in w.deck.clients
  {
    hide Reachable, Disciplined, Upstream, Routed, Readable, KillsClient;
    ReachableClient(w, c);
    assert w.clients[c].received != [];
    assert |FramesOfAll(w.clients[c].emitted)| > 0;
  }

  /** Whenever nothing is under way to the deck, a running client can have any line take effect on the deck as it is. */
  lemma LineCanTakeEffect(w: World, c: string, line: string) returns (v: World, order: seq<string>)
    requires Reachable(w) && w.up == [] && c in w.clients && w.clients[c].phase.Active? && w.clients[c].outbox == []
    requires line != "" && line != "/join"
    ensures Reachable(v) && v.deck == w.deck && v.cabins == w.cabins && Enabled(v, DeckCrew(order))
    ensures TakesEffect(v, Next(v, DeckCrew(order)), c, line, order)
  {
    LineFrames(line, true);
    hide Reachable, ReachableUnshared, Typeable, TakesEffect, Next, LineMsg, Prefixed;
    ActiveIsKnown(w, c);
    v := LineQueued(w, c, line, false);
    order := AnEnumeration(v.deck.cabins.Keys);
    LineHandled(v, c, line, order);
  }

  lemma JoinEffect(w: World, v: World, c: string, name: string, order: seq<string>)
    requires TakesEffect(w, v, c, "/join " + name, order)
    ensures c in w.deck.clients
    ensures v.deck.clients == if name in w.deck.cabinIds && w.deck.cabinIds[name] in w.deck.cabins
                              then w.deck.clients[c := w.deck.clients[c].(cabin := w.deck.cabinIds[name])]
                              else w.deck.clients
  {
    var line := "/join " + name;
    assert line[..5] == "/join" && line[6..] == name && line[0] == '/';
    hide Reaches, Enumerates, SameButCounts;
    var answers, orders :| LineDoes(w.deck, c, line, order, v.deck, answers, orders);
    assert MovesTo(w.deck, c, name, v.deck, orders);
  }

  /** For every name: the request of a running client that types `/join ` and the name can be handled, and the client is
      then recorded in the cabin registered under that name if there is one, and where it was otherwise. */
  lemma JoinLineMoves(w: World, c: string, name: string) returns (v: World, order: seq<string>)
    requires Reachable(w) && w.up == [] && c in w.clients && w.clients[c].phase.Active? && w.clients[c].outbox == []
    ensures Reachable(v) && v.deck == w.deck && Enabled(v, DeckCrew(order)) && c in w.deck.clients
    ensures Next(v, DeckCrew(order)).deck.clients
         == if name in w.deck.cabinIds && w.deck.cabinIds[name] in w.deck.cabins
            then w.deck.clients[c := w.deck.clients[c].(cabin := w.deck.cabinIds[name])]
            else w.deck.clients
  {
    hide Reachable, TakesEffect, Next, Enabled;
    var line := "/join " + name;
    assert line != "" && line != "/join";
    v, order := LineCanTakeEffect(w, c, line);
    JoinEffect(v, Next(v, DeckCrew(order)), c, name, order);
  }
}
