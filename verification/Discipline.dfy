/** What every queue carries in every run: directories and names that are known, messages with the frames their
    handlers index, streams that arrive unchanged and in order, and reports that can be read back. */
module Discipline {
  import opened CabinSteps
  import opened Client
  import opened ClientSteps
  import opened Deck
  import opened Defines
  import opened History
  import opened Invariant
  import opened Ledger
  import opened Lobby
  import opened Membership
  import opened Protocol
  import opened Relay
  import opened Steps
  import opened Words
  import opened World
  import opened Wrappers

  // ----- Directories -----

  /** The deck's maps refer only to what exists, and every name in a roster, in a pending JOIN and in a pending SEND of
      a registered cabin is known. */
  lemma DirectoryConsistency(w: World, cab: string)
    requires Reachable(w) && cab in w.cabins && cab in w.deck.cabins
    ensures Directory(w.deck)
    ensures w.cabins[cab].users <= w.deck.crewIds.Keys
    ensures forall m :: m in w.cabins[cab].inbox && OrderOf(m).Seat? ==> OrderOf(m).username in w.deck.crewIds
    ensures forall m :: m in w.cabins[cab].outbox ==>
              ServiceOf(Prefixed(cab, m)).Send? && ServiceOf(Prefixed(cab, m)).username in w.deck.crewIds
  {
    var p := w.cabins[cab];
    hide Reachable, Forwarded, Ledgered, Headcount, Defaulted, ServiceOf, Prefixed;
    ReachableCabin(w, cab);
    forall m | m in p.outbox
      ensures ServiceOf(Prefixed(cab, m)).Send? && ServiceOf(Prefixed(cab, m)).username in w.deck.crewIds
    {
      var i :| 0 <= i < |p.outbox| && p.outbox[i] == m;
      PendingNameKnown(w.deck, cab, p, i);
    }
  }

  lemma PendingNameKnown(d: Deck, cab: string, p: CabinProc, i: nat)
    requires Registered(d, p) && i < |p.outbox|
    ensures ServiceOf(Prefixed(cab, p.outbox[i])).Send?
    ensures ServiceOf(Prefixed(cab, p.outbox[i])).username in d.crewIds
  {
    var n := |p.settled| + i;
    var copy := Copies(p.broadcasts)[n];
    assert p.outbox[i] == SendMsg(copy.username, copy.sender, copy.text);
    ServiceOfSend(cab, copy.username, copy.sender, copy.text);
    CopyCarries(p, n);
  }

  /** So the lookups for a SEND never insert a default entry: no message of a cabin in the deck's outer loop changes
      any of the maps. */
  lemma LookupsInsertNothing(w: World, cab: string)
    requires Reachable(w) && Enabled(w, DeckCabin(cab))
    ensures Next(w, DeckCabin(cab)).deck == w.deck
  {
    ReachableInv(w);
    hide Inv, Reachable, Next, Enabled;
    DeckCabinKeeps(w, cab);
  }

  // ----- Frames -----

  lemma NotMalformedIsIndexable(d: Deck, input: Frames)
    requires !RequestOf(input).Malformed?
    ensures CrewIndexable(d, input)
  {
  }

  /** Every message a client submits has the frames the deck indexes. */
  lemma SubmittedIndexable(d: Deck, serverId: string, c: string, p: ClientProc, i: nat)
    requires Disciplined(p) && i < |p.submitted|
    ensures CrewIndexable(d, Prefixed(serverId, Prefixed(c, p.submitted[i])))
  {
    var m := p.submitted[i];
    var input := Prefixed(serverId, Prefixed(c, m));
    if i == 0 {
      RequestOfLogin(serverId, c, p.username, p.password);
    } else {
      RequestOfLine(serverId, c, m);
    }
    assert input[2] == m[0] == "CREW";
    NotMalformedIsIndexable(d, input);
  }

  lemma {:induction false} RoutedContains(messages: seq<Frames>, i: nat)
    requires i < |messages| && messages[i] != []
    ensures messages[i][1..] in Routed(messages, messages[i][0])
    decreases |messages|
  {
    if i == 0 {
    } else {
      RoutedContains(messages[1..], i - 1);
    }
  }

  /** Crew messages: those in a client's queue and those in the relay's. */
  lemma CrewWire(w: World)
    requires Reachable(w)
    ensures forall c, m :: c in w.clients && m in w.clients[c].outbox ==>
              CrewIndexable(w.deck, DeckInput(w, Prefixed(c, m)))
    ensures forall m :: m in w.up ==> CrewIndexable(w.deck, DeckInput(w, m))
  {
    hide Reachable, ClientOk, CrewIndexable, Prefixed;
    forall c, m | c in w.clients && m in w.clients[c].outbox
      ensures CrewIndexable(w.deck, DeckInput(w, Prefixed(c, m)))
    {
      ReachableClient(w, c);
      OutboxIndexable(w.deck, w.serverId, w.up, w.down, c, w.clients[c], m);
    }
    assert forall k :: 0 <= k < |w.up| ==> w.up[k] != [] && w.up[k][0] in w.clients by {
      RelayAddressed(w);
    }
    forall m | m in w.up
      ensures CrewIndexable(w.deck, DeckInput(w, m))
    {
      var k :| 0 <= k < |w.up| && w.up[k] == m;
      ReachableClient(w, m[0]);
      UpIndexable(w.deck, w.serverId, w.up, w.down, m[0], w.clients[m[0]], k);
    }
  }

  lemma RelayAddressed(w: World)
    requires Reachable(w)
    ensures Addressed(w.up, w.clients.Keys)
  {
    hide Reachable, DeckInv, CabinsOk, ClientsOk, Deliveries;
    ReachableInv(w);
  }

  lemma OutboxIndexable(d: Deck, serverId: string, up: seq<Frames>, down: seq<Frames>, c: string, p: ClientProc,
                        m: Frames)
    requires ClientOk(d, serverId, up, down, c, p) && m in p.outbox
    ensures CrewIndexable(d, Prefixed(serverId, Prefixed(c, m)))
  {
    hide CrewIndexable, Disciplined, Downstream, Recorded, Greeted, Routed;
    var i :| 0 <= i < |p.outbox| && p.outbox[i] == m;
    var j := |p.consumed + Routed(up, c)| + i;
    assert p.submitted[j] == m;
    SubmittedIndexable(d, serverId, c, p, j);
  }

  lemma UpIndexable(d: Deck, serverId: string, up: seq<Frames>, down: seq<Frames>, c: string, p: ClientProc, k: nat)
    requires ClientOk(d, serverId, up, down, c, p) && k < |up| && up[k] != [] && up[k][0] == c
    ensures CrewIndexable(d, Prefixed(serverId, up[k]))
  {
    hide CrewIndexable, Disciplined, Downstream, Recorded, Greeted, Routed;
    var m := up[k][1..];
    RoutedContains(up, k);
    var i :| 0 <= i < |Routed(up, c)| && Routed(up, c)[i] == m;
    assert p.submitted[|p.consumed| + i] == m;
    SubmittedIndexable(d, serverId, c, p, |p.consumed| + i);
    assert up[k] == Prefixed(c, m);
  }

  /** Cabin messages, in both directions, including the info message the registration handler awaits. */
  lemma CabinWire(w: World, cab: string)
    requires Reachable(w) && cab in w.cabins
    ensures forall m :: m in w.cabins[cab].outbox ==> !ServiceOf(Prefixed(cab, m)).Underflow?
    ensures w.awaiting == Some(cab) ==> forall m :: m in w.cabins[cab].outbox ==> |Prefixed(cab, m)| >= 3
    ensures w.cabins[cab].phase.Serving? ==> forall m :: m in w.cabins[cab].inbox ==> !OrderOf(m).Short?
    ensures w.cabins[cab].phase.Registering? ==> forall m :: m in w.cabins[cab].inbox ==> Accepts(m)
    ensures !w.cabins[cab].phase.Refused?
  {
    var p := w.cabins[cab];
    hide Reachable, DeckInv, Forwarded, Ledgered;
    ReachableCabin(w, cab);
    if cab in w.deck.cabins {
      assert !p.phase.Registering?;
      forall m | m in p.outbox
        ensures !ServiceOf(Prefixed(cab, m)).Underflow?
      {
        var i :| 0 <= i < |p.outbox| && p.outbox[i] == m;
        PendingNameKnown(w.deck, cab, p, i);
      }
    } else {
      ServiceOfRegistration(cab);
      LateInfo(cab, p.title, p.description);
    }
  }

  lemma ReadableFrames(m: Frames)
    requires Readable(m) && !KillsClient(m)
    ensures && |m| >= 1
            && (m[0] == "SHIP" || m[0] == "CABIN" ==> |m| >= 2)
            && (m[0] == "SHIP" && m[1] == "COMMAND" ==> |m| >= 3 && m[2] != "die")
            && (m[0] == "SHIP" && m[1] == "TEXT" ==> |m| >= 3)
            && (m[0] == "CABIN" && m[1] == "TEXT" ==> |m| >= 4)
  {
  }

  /** What a client gets: the first message is the ACK, every message has the frames its handlers index, and none tells
      it to die. */
  lemma ClientWire(w: World, c: string)
    requires Reachable(w) && c in w.clients
    ensures var p := w.clients[c];
            var stream := p.received + p.inbox + Routed(w.down, c);
            && (stream != [] ==> stream[0] == ["SHIP", "ACK"])
            && (forall m :: m in stream ==>
                  && |m| >= 1
                  && (m[0] == "SHIP" || m[0] == "CABIN" ==> |m| >= 2)
                  && (m[0] == "SHIP" && m[1] == "COMMAND" ==> |m| >= 3 && m[2] != "die")
                  && (m[0] == "SHIP" && m[1] == "TEXT" ==> |m| >= 3)
                  && (m[0] == "CABIN" && m[1] == "TEXT" ==> |m| >= 4))
            && (p.received != [] <==> !p.phase.LoggingIn?)
  {
    var p := w.clients[c];
    var stream := p.received + p.inbox + Routed(w.down, c);
    hide Reachable, Disciplined, Upstream, Recorded, Routed, Readable, KillsClient;
    ReachableClient(w, c);
    assert forall i :: 0 <= i < |p.emitted| ==> FramesOfAll(p.emitted)[i] == p.emitted[i].frames;
    forall m | m in stream
      ensures && |m| >= 1
              && (m[0] == "SHIP" || m[0] == "CABIN" ==> |m| >= 2)
              && (m[0] == "SHIP" && m[1] == "COMMAND" ==> |m| >= 3 && m[2] != "die")
              && (m[0] == "SHIP" && m[1] == "TEXT" ==> |m| >= 3)
              && (m[0] == "CABIN" && m[1] == "TEXT" ==> |m| >= 4)
    {
      assert Readable(m) && !KillsClient(m);
      ReadableFrames(m);
    }
  }

  // ----- The relay -----

  /** What a client sends reaches the deck unchanged and in order, as the server id and its own id in front of its
      frames; what the deck addresses to it reaches it with both ids stripped, unchanged and in order. Nothing is lost
      or invented under way: when the queues between them are empty, everything has arrived. */
  lemma RelayRoundTrip(w: World, c: string)
    requires Reachable(w) && c in w.clients
    ensures var p := w.clients[c];
            && p.submitted == p.consumed + Routed(w.up, c) + p.outbox
            && FramesOfAll(p.emitted) == p.received + p.inbox + Routed(w.down, c)
            && (Routed(w.up, c) == [] && p.outbox == [] ==> p.consumed == p.submitted)
            && (Routed(w.down, c) == [] && p.inbox == [] ==> p.received == FramesOfAll(p.emitted))
    ensures w.up != [] && w.up[0] != [] && w.up[0][0] == c ==>
              && |w.clients[c].consumed| < |w.clients[c].submitted|
              && DeckInput(w, w.up[0]) == [w.serverId, c] + w.clients[c].submitted[|w.clients[c].consumed|]
  {
    var p := w.clients[c];
    hide Reachable, Disciplined, Recorded, Greeted, Routed;
    ReachableClient(w, c);
    if w.up != [] && w.up[0] != [] && w.up[0][0] == c {
      HeadIsNext(w.up, c, p);
      var m := p.submitted[|p.consumed|];
      assert w.up[0] == [c] + m;
      assert [w.serverId] + ([c] + m) == [w.serverId, c] + m;
    }
  }

  // ----- What a message of the relay does -----

  /** The deck's answers go to one client, its orders to the cabins: each answer is queued for the relay behind the
      client's id, and each order for the cabin whose id it starts with; nobody else is sent anything. */
  ghost predicate Reaches(w: World, v: World, c: string, answers: seq<Frames>, orders: seq<Frames>) {
    && |v.down| == |w.down| + |answers| && v.down[..|w.down|] == w.down
    && (forall i :: 0 <= i < |answers| ==> v.down[|w.down| + i] == [c] + answers[i])
    && v.clients.Keys == w.clients.Keys && v.cabins.Keys == w.cabins.Keys
    && (forall k :: k in w.clients ==>
          v.clients[k].emitted == w.clients[k].emitted + if k == c then Emissions(answers, None) else [])
    && (forall k :: k in w.cabins ==> v.cabins[k].inbox == w.cabins[k].inbox + Routed(orders, k))
  }

  lemma AnswersRouted(s: string, c: string, answers: seq<Frames>, toServer: seq<Frames>, k: string)
    requires SentBy(s, c, answers, toServer) && |answers| <= 1
    ensures |Routed(toServer, s)| == |answers|
    ensures forall i :: 0 <= i < |answers| ==> Routed(toServer, s)[i] == [c] + answers[i]
    ensures ToClient(s, toServer, k) == if k == c then answers else []
  {
    if answers == [] {
      assert Routed(toServer, s) == [];
    } else {
      var m := toServer[0];
      assert toServer == [m] && m == [s, c] + answers[0];
      RoutedOne(m, s);
      assert m[1..] == [c] + answers[0];
      RoutedOne([c] + answers[0], k);
      assert ([c] + answers[0])[1..] == answers[0] && [answers[0]] == answers;
    }
  }

  /** What the step for a crew message does outside the deck, in terms of the reaction. */
  lemma StepReacts(w: World, order: seq<string>)
    requires Enabled(w, DeckCrew(order)) && w.up != [] && Enumerates(order, w.deck.cabins.Keys)
    ensures var v, r := Next(w, DeckCrew(order)), OnServerInput(w.deck, DeckInput(w, w.up[0]), order);
            && v.deck == r.deck && v.down == w.down + Routed(r.toServer, w.serverId)
            && v.clients.Keys == w.clients.Keys && v.cabins.Keys == w.cabins.Keys
            && (forall k :: k in w.clients ==>
                  v.clients[k].emitted == w.clients[k].emitted + Emissions(ToClient(w.serverId, r.toServer, k), None))
            && (forall k :: k in w.cabins ==> v.cabins[k].inbox == w.cabins[k].inbox + Routed(r.toCabins, k))
  {
    hide OnServerInput, Routed, CrewRequest, Members, NoticesOf, Emissions, Enumerates, ToClient, DeckInput;
  }

  lemma StepReaches(w: World, order: seq<string>, c: string, answers: seq<Frames>)
    requires Enabled(w, DeckCrew(order)) && w.up != [] && Enumerates(order, w.deck.cabins.Keys)
    requires SentBy(w.serverId, c, answers, OnServerInput(w.deck, DeckInput(w, w.up[0]), order).toServer)
    requires |answers| <= 1
    ensures var v, r := Next(w, DeckCrew(order)), OnServerInput(w.deck, DeckInput(w, w.up[0]), order);
            v.deck == r.deck && Reaches(w, v, c, answers, r.toCabins)
  {
    var r, v := OnServerInput(w.deck, DeckInput(w, w.up[0]), order), Next(w, DeckCrew(order));
    hide OnServerInput, Routed, Emissions, Enumerates, ToClient, SentBy, DeckInput, Next, Enabled;
    StepReacts(w, order);
    forall k | k in w.clients
      ensures v.clients[k].emitted == w.clients[k].emitted + if k == c then Emissions(answers, None) else []
    {
      AnswersRouted(w.serverId, c, answers, r.toServer, k);
      assert Emissions([], None) == [];
    }
    AnswersRouted(w.serverId, c, answers, r.toServer, c);
  }

  /** The sender of the next message is a client of the system, and online if it is on the books. */
  lemma SenderOnline(w: World)
    requires Reachable(w) && w.up != []
    ensures w.up[0] != [] && w.up[0][0] in w.clients
    ensures w.up[0][0] in w.deck.clients ==> w.deck.clients[w.up[0][0]].online
  {
    hide Reachable, DeckInv, CabinsOk, Deliveries, CrewRequest;
    ReachableInv(w);
    assert w.up[0] != [] && w.up[0][0] in w.clients;
    var c := w.up[0][0];
    assert ClientOk(w.deck, w.serverId, w.up, w.down, c, w.clients[c]);
    HeadMessage(w.deck, w.serverId, w.up, c, w.clients[c]);
  }

  /** In every reachable state, when the deck handles a command of a client on its books, it does what the command says,
      and the answers and orders are sent to that client and to those cabins alone. */
  lemma CommandReplies(w: World, order: seq<string>, c: string, word: string, args: Frames)
    requires Reachable(w) && Enabled(w, DeckCrew(order)) && Enumerates(order, w.deck.cabins.Keys)
    requires w.up != [] && w.up[0] == [c, "CREW", "COMMAND", word] + args && c in w.deck.clients
    ensures word == "/join" ==> args != []
    ensures var v := Next(w, DeckCrew(order));
            exists answers, orders :: WordDoes(w.deck, c, word, args, order, v.deck, answers, orders)
                                   && Reaches(w, v, c, answers, orders)
  {
    var d, s := w.deck, w.serverId;
    var input := [s, c, "CREW", "COMMAND", word] + args;
    assert DeckInput(w, w.up[0]) == input && w.up[0][0] == c;
    JoinHasName(w, c, word, args);
    hide Reachable, Enabled, OnServerInput, Next, WordDoes, Reaches, Enumerates, DeckInput;
    SenderOnline(w);
    ReachableDeck(w);
    CommandMeaning(d, s, c, word, args, order);
    var r := OnServerInput(d, input, order);
    var answers :| WordDoes(d, c, word, args, order, r.deck, answers, r.toCabins)
                && SentBy(s, c, answers, r.toServer);
    AtMostOneAnswer(d, c, word, args, order, r.deck, answers, r.toCabins);
    StepReaches(w, order, c, answers);
  }

  lemma ReachableDeck(w: World)
    requires Reachable(w)
    ensures DeckInv(w.deck)
  {
    hide Reachable, Inv;
    ReachableInv(w);
    DeckOfInv(w);
  }

  lemma JoinHasName(w: World, c: string, word: string, args: Frames)
    requires Reachable(w) && w.up != [] && w.up[0] == [c, "CREW", "COMMAND", word] + args && c in w.deck.clients
    ensures word == "/join" ==> args != []
  {
    hide Reachable;
    CrewWire(w);
    assert w.up[0] in w.up;
    assert DeckInput(w, w.up[0]) == [w.serverId, c, "CREW", "COMMAND", word] + args;
  }

  lemma AtMostOneAnswer(d: Deck, c: string, word: string, args: Frames, order: seq<string>, e: Deck,
                        answers: seq<Frames>, orders: seq<Frames>)
    requires c in d.clients && Enumerates(order, d.cabins.Keys) && (word == "/join" ==> args != [])
    requires WordDoes(d, c, word, args, order, e, answers, orders)
    ensures |answers| <= 1
  {
    hide AsksFor, Departure, ListsCabins, Enumerates, Members, Decimal;
  }

  /** A text changes nothing at the deck, which answers nothing and sends it to the sender's cabin alone, under the
      sender's name. */
  lemma TextReplies(w: World, order: seq<string>, c: string, text: string)
    requires Reachable(w) && Enabled(w, DeckCrew(order)) && Enumerates(order, w.deck.cabins.Keys)
    requires w.up != [] && w.up[0] == [c, "CREW", "TEXT", text] && c in w.deck.clients
    ensures var v, me := Next(w, DeckCrew(order)), w.deck.clients[c];
            v.deck == w.deck && Reaches(w, v, c, [], [[me.cabin, "TEXT", me.username, text]])
  {
    assert DeckInput(w, w.up[0]) == [w.serverId, c, "CREW", "TEXT", text] + [];
    hide Reachable, Enabled, OnServerInput, Next, Reaches, Enumerates, DeckInput;
    TextMeaning(w.deck, w.serverId, c, text, [], order);
    StepReaches(w, order, c, []);
  }

  /** The reply to `/showall` lists every registered cabin with its head count, and title, description and count can be
      read back from it; it is all that is sent. */
  lemma ShowAllReply(w: World, order: seq<string>, c: string)
    requires Reachable(w) && Enabled(w, DeckCrew(order)) && Enumerates(order, w.deck.cabins.Keys)
    requires w.up != [] && w.up[0] == [c, "CREW", "COMMAND", "/showall"] && c in w.deck.clients
    ensures var v, answer := Next(w, DeckCrew(order)), ["SHIP", "INFO"] + Report(order, w.deck.cabins);
            && |order| == |w.deck.cabins| && ListsCabins(w.deck, order, answer)
            && v.deck == w.deck && Reaches(w, v, c, [answer], []) && v.down == w.down + [[c] + answer]
  {
    var d, s := w.deck, w.serverId;
    var answer := ["SHIP", "INFO"] + Report(order, d.cabins);
    hide Reachable, Enabled, OnServerInput, Next, Enumerates, DeckInput, ShowAllCabins, Report, ListsCabins, DeckInv,
      Headcount, Reaches, SentBy;
    ReachableDeck(w);
    BooksCount(d);
    ShowAllHandled(w, c, order);
    ShowAllLists(d, s, c, order);
    EnumerationSize(order, d.cabins.Keys);
    Answer(s, c, answer);
    StepReaches(w, order, c, [answer]);
    OneQueued(w, Next(w, DeckCrew(order)), c, answer, []);
  }

  lemma ShowAllHandled(w: World, c: string, order: seq<string>)
    requires w.up != [] && w.up[0] == [c, "CREW", "COMMAND", "/showall"] && c in w.deck.clients
    requires Enumerates(order, w.deck.cabins.Keys)
    ensures OnServerInput(w.deck, DeckInput(w, w.up[0]), order) == ShowAllCabins(w.deck, w.serverId, c, order)
  {
    assert DeckInput(w, w.up[0]) == [w.serverId, c, "CREW", "COMMAND", "/showall"];
    hide ShowAllCabins, Enumerates;
  }

  lemma OneQueued(w: World, v: World, c: string, answer: Frames, orders: seq<Frames>)
    requires Reaches(w, v, c, [answer], orders)
    ensures v.down == w.down + [[c] + answer]
  {
    var n := |w.down|;
    hide Emissions, Routed;
    assert v.down == v.down[..n] + [v.down[n]];
    assert v.down[n + 0] == [c] + [answer][0];
  }

  // ----- The report -----

  /** The report has three frames for each registered cabin, and from it the client can read every title, description
      and count; and the counts are the head counts. */
  lemma ShowAllReport(w: World, order: seq<string>)
    requires Reachable(w) && Enumerates(order, w.deck.cabins.Keys) && |w.deck.clients| < U32_RANGE
    ensures |Report(order, w.deck.cabins)| == 3 * |w.deck.cabins|
    ensures ReadReport(Report(order, w.deck.cabins))
         == seq(|order|, i requires 0 <= i < |order| =>
              Listing(w.deck.cabins[order[i]].title, w.deck.cabins[order[i]].description,
                      |Members(w.deck, order[i])|))
  {
    hide Reachable, CabinsOk, ClientsOk, Deliveries, Report, ReadReport, Directory, Defaulted, Headcount, Members,
      Enumerates, Addressed;
    ReachableInv(w);
    ReportCounts(w.deck, order);
  }

  lemma ReportCounts(d: Deck, order: seq<string>)
    requires Headcount(d) && Enumerates(order, d.cabins.Keys) && |d.clients| < U32_RANGE
    ensures |Report(order, d.cabins)| == 3 * |d.cabins|
    ensures ReadReport(Report(order, d.cabins))
         == seq(|order|, i requires 0 <= i < |order| =>
              Listing(d.cabins[order[i]].title, d.cabins[order[i]].description, |Members(d, order[i])|))
  {
    hide Report, ReadReport, Headcount, Members;
    ReportFidelity(order, d.cabins);
    ListingsCount(d, order);
    EnumerationSize(order, d.cabins.Keys);
  }

  lemma ListingsCount(d: Deck, order: seq<string>)
    requires Headcount(d) && |d.clients| < U32_RANGE
    requires forall i :: 0 <= i < |order| ==> order[i] in d.cabins
    ensures forall i :: 0 <= i < |order| ==>
              ListingOf(d.cabins[order[i]])
              == Listing(d.cabins[order[i]].title, d.cabins[order[i]].description, |Members(d, order[i])|)
  {
    forall i | 0 <= i < |order|
      ensures d.cabins[order[i]].playing == |Members(d, order[i])|
    {
      CountIsExact(d, order[i]);
    }
  }

  lemma {:induction false} EnumerationSize<T(!new)>(order: seq<T>, s: set<T>)
    requires Enumerates(order, s)
    ensures |order| == |s|
  {
    if order == [] {
      assert s == {};
    } else {
      var n := |order| - 1;
      assert order == order[..n] + [order[n]];
      EnumerationSize(order[..n], s - {order[n]});
    }
  }
}
