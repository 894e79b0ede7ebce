/** Rosters and head counts in every run, the conservation of the head count, and what each assumption of the
    model is needed for. */
module Accounts {
  import opened CabinSteps
  import opened Deck
  import opened Defines
  import opened History
  import opened Invariant
  import opened Ledger
  import opened Lobby
  import opened Membership
  import opened Relay
  import opened Rosters
  import Shipdeck
  import opened Steps
  import opened Words
  import opened World
  import opened Wrappers

  // ----- Rosters and counts -----

  /** As long as no name is shared, a cabin that handles its pending messages in order arrives at exactly the names of
      the online clients recorded in it. */
  lemma RosterAgreement(w: World, cab: string)
    requires ReachableUnshared(w) && cab in w.cabins && cab in w.deck.cabins
    ensures FinalUsers(w.cabins[cab].users, w.cabins[cab].inbox) == Names(w.deck, cab)
  {
    hide ReachableUnshared, Registered, DeckInv, Unique, Snapshot, Stable;
    ReachableInStepCabin(w, cab);
  }

  /** In every reachable state every count is the head count: modulo 2^32 in general, and exactly as long as fewer
      than 2^32 clients are on the books. */
  lemma ExactHeadcount(w: World, cab: string)
    requires Reachable(w) && cab in w.deck.cabins
    ensures w.deck.cabins[cab].playing == |Members(w.deck, cab)| % U32_RANGE
    ensures |w.deck.clients| < U32_RANGE ==> w.deck.cabins[cab].playing == |Members(w.deck, cab)|
  {
    ReachableInv(w);
    if |w.deck.clients| < U32_RANGE {
      CountIsExact(w.deck, cab);
    }
  }

  /** The deck tells a cabin that somebody leaves it, which it does exactly where it takes the cabin's count down. */
  ghost predicate TakesDown(r: Reaction, cab: string) {
    exists i :: 0 <= i < |r.toCabins| && IsBye(r.toCabins[i], cab)
  }

  predicate IsBye(m: Frames, cab: string) {
    |m| >= 2 && m[0] == cab && m[1] == "DISCONNECT"
  }

  /** The decrement never goes below zero, nor does it insert a default cabin. When the deck handles the next message,
      a count is taken down by one exactly where a DISCONNECT is sent; the cabin is then registered and its count above
      zero. Otherwise the count stays or is taken up by one. */
  lemma NoUnderflow(w: World, order: seq<string>, cab: string)
    requires Reachable(w) && w.up != [] && Enumerates(order, w.deck.cabins.Keys) && |w.deck.clients| < U32_RANGE
    requires cab != ""
    ensures var r := OnServerInput(w.deck, DeckInput(w, w.up[0]), order);
            && (TakesDown(r, cab) ==>
                  && cab in w.deck.cabins && cab in r.deck.cabins && w.deck.cabins[cab].playing > 0
                  && r.deck.cabins[cab].playing == w.deck.cabins[cab].playing - 1)
            && (!TakesDown(r, cab) && cab in w.deck.cabins ==>
                  && cab in r.deck.cabins
                  && r.deck.cabins[cab].playing
                     in {w.deck.cabins[cab].playing, Inc32(w.deck.cabins[cab].playing)})
  {
    hide *;
    ReachableInv(w);
    QueuedHasSender(w);
    var c, request := w.up[0][0], CrewRequest(DeckInput(w, w.up[0]));
    CrewStep(w, order);
    DeckOfInv(w);
    CountStep(w.deck, w.serverId, c, request, order, cab);
    CountsAre(w.deck, OnServerInput(w.deck, DeckInput(w, w.up[0]), order), c, cab);
    if TakesDown(OnServerInput(w.deck, DeckInput(w, w.up[0]), order), cab) {
      ExactHeadcount(w, cab);
      var count := w.deck.cabins[cab].playing;
      assert count > 0 && Dec32(count) == count - 1 by {
        Decremented(count);
      }
    }
  }

  lemma CountsAre(d: Deck, r: Reaction, c: string, cab: string)
    requires CountsRight(d, r, c, cab)
    ensures TakesDown(r, cab) ==>
              && c in Members(d, cab) && cab in d.cabins && cab in r.deck.cabins
              && r.deck.cabins[cab].playing == Dec32(d.cabins[cab].playing)
    ensures !TakesDown(r, cab) && cab in d.cabins ==>
              && cab in r.deck.cabins
              && r.deck.cabins[cab].playing in {d.cabins[cab].playing, Inc32(d.cabins[cab].playing)}
  {
    hide TakesDown, Members;
  }

  lemma Decremented(count: u32)
    requires count != 0
    ensures Dec32(count) == count - 1
  {
  }

  /** A DISCONNECT to the cabin goes with its count taken down by one and a member leaving it. */
  ghost predicate CountsRight(d: Deck, r: Reaction, c: string, cab: string) {
    && (TakesDown(r, cab) ==>
          && c in Members(d, cab) && cab in d.cabins && cab in r.deck.cabins
          && r.deck.cabins[cab].playing == Dec32(d.cabins[cab].playing))
    && (!TakesDown(r, cab) && cab in d.cabins ==>
          && cab in r.deck.cabins
          && r.deck.cabins[cab].playing in {d.cabins[cab].playing, Inc32(d.cabins[cab].playing)})
  }

  lemma MoveCounts(d: Deck, e: Deck, r: Reaction, c: string, to: string, cab: string)
    requires e.cabins == d.cabins && c in e.clients && cab != ""
    requires e.clients[c].cabin == cab ==> c in Members(d, cab) && cab in d.cabins
    requires to != e.clients[c].cabin || to == ""
    requires "" !in d.cabins
    requires r.deck == ChangeCabin(e, c, to).deck && r.toCabins == ChangeCabin(e, c, to).toCabins
    ensures CountsRight(d, r, c, cab)
  {
    hide Members;
    if r.toCabins != [] {
      assert IsBye(r.toCabins[0], e.clients[c].cabin);
    }
  }

  lemma CountStep(d: Deck, s: string, c: string, request: Request, order: seq<string>, cab: string)
    requires DeckInv(d) && Enumerates(order, d.cabins.Keys) && Serviceable(d, c) && cab != ""
    ensures CountsRight(d, OnRequest(d, s, c, request, order), c, cab)
  {
    var r := OnRequest(d, s, c, request, order);
    assert Directory(d) && (c in d.clients ==> d.clients[c].cabin == "" || d.clients[c].cabin in d.cabins);
    hide DeckInv, ChangeCabin, Report, Enumerates, CountsRight, Directory;
    if request.Login? && c !in d.clients {
      EnrollIsMove(d, s, c, request.username, request.password);
      MoveCounts(d, Named(d, s, c, request.username, request.password), r, c, At(d.cabinIds, d.defaultCabin), cab);
    } else if c in d.clients && request.Quit? {
      MoveCounts(d, d.(clients := d.clients[c := d.clients[c].(online := false)]), r, c, "", cab);
    } else if c in d.clients && (request.Leave? || request.Join?) {
      var name := if request.Leave? then d.defaultCabin else request.cabinName;
      if At(d.cabinIds, name) != d.clients[c].cabin {
        MoveCounts(d, d.(cabinIds := With(d.cabinIds, name)), r, c, At(d.cabinIds, name), cab);
      } else {
        StaysCount(d, r, c, cab);
      }
    } else {
      StaysCount(d, r, c, cab);
    }
  }

  lemma StaysCount(d: Deck, r: Reaction, c: string, cab: string)
    requires r.deck.cabins == d.cabins
    requires forall i :: 0 <= i < |r.toCabins| ==> !IsBye(r.toCabins[i], cab)
    ensures CountsRight(d, r, c, cab)
  {
  }

  lemma NamesCountMembers(d: Deck, cab: string)
    requires Unique(d)
    ensures |Names(d, cab)| == |Members(d, cab)|
  {
    NamesOfSet(d, Members(d, cab));
    assert Names(d, cab) == NameSet(d, Members(d, cab));
  }

  ghost function NameSet(d: Deck, s: set<string>): set<string>
    requires s <= d.clients.Keys
  {
    set c | c in s :: d.clients[c].username
  }

  /** Online clients have as many names as there are of them. */
  lemma {:induction false} NamesOfSet(d: Deck, s: set<string>)
    requires Unique(d) && s <= d.clients.Keys
    requires forall c :: c in s ==> d.clients[c].online
    ensures |NameSet(d, s)| == |s|
  {
    if s == {} {
      assert NameSet(d, s) == {};
    } else {
      var c :| c in s;
      NamesOfSet(d, s - {c});
      forall x | x in s - {c}
        ensures d.clients[x].username != d.clients[c].username
      {
        assert At(d.crewIds, d.clients[x].username) == x;
      }
      assert NameSet(d, s) == NameSet(d, s - {c}) + {d.clients[c].username};
    }
  }

  /** As long as no name is shared, once its queue is empty, a cabin's own set of users has exactly as many elements as
      the deck counts. */
  lemma DrainedRosterIsCount(w: World, cab: string)
    requires ReachableUnshared(w) && cab in w.cabins && cab in w.deck.cabins
    requires w.cabins[cab].inbox == [] && |w.deck.clients| < U32_RANGE
    ensures w.cabins[cab].users == Names(w.deck, cab)
    ensures |w.cabins[cab].users| == w.deck.cabins[cab].playing
  {
    hide ReachableUnshared, Reachable, Registered, DeckInv, Unique, InStep, Members, Names;
    RosterAgreement(w, cab);
    UnsharedIsReachable(w);
    ExactHeadcount(w, cab);
    ReachableInStepCabin(w, cab);
    NamesCountMembers(w.deck, cab);
  }

  // ----- Conservation -----

  function Total(order: seq<string>, cabins: map<string, CabinInfo>): int
    requires forall i :: 0 <= i < |order| ==> order[i] in cabins
  {
    if order == [] then 0
    else Total(order[..|order| - 1], cabins) + cabins[order[|order| - 1]].playing
  }

  /** The online clients recorded in some cabin of a list. */
  ghost function SeatedIn(d: Deck, order: seq<string>): set<string> {
    set c | c in d.clients && d.clients[c].online && d.clients[c].cabin in order
  }

  ghost function Seated(d: Deck): set<string> {
    set c | c in d.clients && d.clients[c].online && d.clients[c].cabin != ""
  }

  lemma SeatedInOneMore(d: Deck, order: seq<string>, cab: string)
    requires cab !in order
    ensures SeatedIn(d, order + [cab]) == SeatedIn(d, order) + Members(d, cab)
    ensures SeatedIn(d, order) !! Members(d, cab)
  {
  }

  lemma {:induction false} TotalIsSeated(d: Deck, order: seq<string>)
    requires forall i :: 0 <= i < |order| ==> order[i] in d.cabins
    requires forall i, j :: 0 <= i < j < |order| ==> order[i] != order[j]
    requires forall cab :: cab in d.cabins ==> d.cabins[cab].playing == |Members(d, cab)|
    ensures Total(order, d.cabins) == |SeatedIn(d, order)|
  {
    if order == [] {
      assert SeatedIn(d, order) == {};
    } else {
      var n := |order| - 1;
      TotalIsSeated(d, order[..n]);
      SeatedInOneMore(d, order[..n], order[n]);
      assert order == order[..n] + [order[n]];
      hide SeatedIn, Members;
    }
  }

  lemma SeatedSomewhere(d: Deck, order: seq<string>)
    requires Directory(d) && Enumerates(order, d.cabins.Keys)
    ensures SeatedIn(d, order) == Seated(d)
  {
    forall c | c in d.clients
      ensures d.clients[c].cabin in order <==> d.clients[c].cabin != ""
    {
      assert d.clients[c].cabin == "" || d.clients[c].cabin in d.cabins;
    }
  }

  lemma DeckConservation(d: Deck, order: seq<string>)
    requires DeckInv(d) && Enumerates(order, d.cabins.Keys) && |d.clients| < U32_RANGE
    ensures Total(order, d.cabins) == |Seated(d)|
  {
    forall cab | cab in d.cabins
      ensures d.cabins[cab].playing == |Members(d, cab)|
    {
      CountIsExact(d, cab);
    }
    SeatedSomewhere(d, order);
    hide Directory, Members, SeatedIn, Seated;
    TotalIsSeated(d, order);
  }

  /** In every reachable state the counts of all cabins add up to the number of online clients with a cabin,
      whatever the order of the cabins. */
  lemma Conservation(w: World, order: seq<string>)
    requires Reachable(w) && Enumerates(order, w.deck.cabins.Keys) && |w.deck.clients| < U32_RANGE
    ensures Total(order, w.deck.cabins) == |Seated(w.deck)|
  {
    ReachableInv(w);
    hide DeckInv, CabinsOk, ClientsOk, Deliveries, Reachable;
    DeckConservation(w.deck, order);
  }

  lemma SeatedAfterMove(d: Deck, e: Deck, c: string, target: string)
    requires c in Seated(d) && target != ""
    requires e.clients == d.clients || e.clients == d.clients[c := d.clients[c].(cabin := target)]
    ensures Seated(e) == Seated(d) && e.clients.Keys == d.clients.Keys
  {
  }

  lemma JoinRecord(d: Deck, c: string, name: string)
    requires DeckInv(d) && c in d.clients && d.clients[c].online
    ensures var target := At(d.cabinIds, name);
            JoinCabin(d, c, name).deck.clients
            == if target in d.cabins then d.clients[c := d.clients[c].(cabin := target)] else d.clients
  {
    hide DeckInv, ChangeCabin, Extends, Tracks, Silent;
    LookupAndChangeSound(d, c, name);
  }

  lemma MoveKeepsSeated(d: Deck, s: string, c: string, request: Request, order: seq<string>)
    requires DeckInv(d) && Enumerates(order, d.cabins.Keys) && c in Seated(d)
    requires request.Leave? || request.Join?
    ensures var e := OnRequest(d, s, c, request, order).deck; Seated(e) == Seated(d) && e.clients.Keys == d.clients.Keys
  {
    var name := if request.Leave? then d.defaultCabin else request.cabinName;
    var e := OnRequest(d, s, c, request, order).deck;
    assert "" !in d.cabins && c in d.clients && d.clients[c].online;
    assert e == JoinCabin(d, c, name).deck;
    hide OnRequest;
    JoinRecord(d, c, name);
    hide *;
    SeatedAfterMove(d, e, c, if At(d.cabinIds, name) in d.cabins then At(d.cabinIds, name) else "none");
  }

  /** A move of a seated client to another cabin leaves the set of seated clients, and so the total, unchanged. */
  lemma MovesConserve(w: World, order: seq<string>, cabs: seq<string>)
    requires Reachable(w) && Enabled(w, DeckCrew(order)) && w.up != [] && w.up[0] != []
    requires RequestAt(w).Leave? || RequestAt(w).Join?
    requires Sender(w) in Seated(w.deck)
    requires Enumerates(cabs, w.deck.cabins.Keys) && |w.deck.clients| < U32_RANGE
    ensures var v := Next(w, DeckCrew(order));
            && Seated(v.deck) == Seated(w.deck)
            && Enumerates(cabs, v.deck.cabins.Keys)
            && Total(cabs, v.deck.cabins) == Total(cabs, w.deck.cabins)
  {
    hide CabinsOk, ClientsOk, Deliveries, DeckInv, Reachable, Seated, OnServerInput, OnRequest, Affects, Extends,
      CabinAfterCrew, ClientAfterCrew, CrewRequest, Total, Serviceable, Routed, Enumerates;
    ReachableInv(w);
    CrewStep(w, order);
    MoveKeepsSeated(w.deck, w.serverId, Sender(w), RequestAt(w), order);
    DeckConservation(w.deck, cabs);
    DeckConservation(Next(w, DeckCrew(order)).deck, cabs);
  }

  // ----- Where the assumptions matter -----

  /** The request leads to `change_player_cabins`. */
  predicate Moves(d: Deck, c: string, request: Request)
    requires c in d.clients
  {
    match request
    case Leave => At(d.cabinIds, d.defaultCabin) != d.clients[c].cabin
    case Join(name) => At(d.cabinIds, name) != d.clients[c].cabin
    case Quit => true
    case _ => false
  }

  /** A command from a client that has quit: the count of its last cabin, which the deck keeps in its record, is taken
      down again although nobody leaves. A request of a client on the books keeps the counts exactly if the client is
      online, is recorded in no cabin, or asks for no move. */
  lemma StaleCommandMiscounts(d: Deck, s: string, c: string, request: Request, order: seq<string>)
    requires DeckInv(d) && Enumerates(order, d.cabins.Keys) && c in d.clients
    ensures Headcount(OnRequest(d, s, c, request, order).deck)
       <==> d.clients[c].online || d.clients[c].cabin == "" || !Moves(d, c, request)
  {
    var e := OnRequest(d, s, c, request, order).deck;
    if d.clients[c].online {
      hide Tracks, Extends, Headcount, Directory, Defaulted, OnRequest, Moves, NoNamesake, Departs;
      OnRequestSound(d, s, c, request, order);
    } else {
      OfflineChangesNobody(d, s, c, request, order);
      SameClients(d, e);
      if Moves(d, c, request) && d.clients[c].cabin != "" {
        CountedDown(d, e, d.clients[c].cabin);
      } else {
        SameCounts(d, e);
      }
    }
  }

  lemma OfflineChangesNobody(d: Deck, s: string, c: string, request: Request, order: seq<string>)
    requires Directory(d) && Enumerates(order, d.cabins.Keys) && c in d.clients && !d.clients[c].online
    ensures var e := OnRequest(d, s, c, request, order).deck;
            var cab := d.clients[c].cabin;
            && e.clients == d.clients
            && (if Moves(d, c, request) && cab != ""
                then && cab in d.cabins
                     && e.cabins == d.cabins[cab := d.cabins[cab].(playing := Dec32(d.cabins[cab].playing))]
                else e.cabins == d.cabins)
  {
    var me := d.clients[c];
    assert me.cabin == "" || me.cabin in d.cabins;
    assert d.clients[c := me.(online := false)] == d.clients;
    hide Enumerates, Report, Directory;
  }

  lemma CountedDown(d: Deck, e: Deck, cab: string)
    requires Headcount(d) && cab in d.cabins
    requires e.cabins == d.cabins[cab := d.cabins[cab].(playing := Dec32(d.cabins[cab].playing))]
    requires Members(e, cab) == Members(d, cab)
    ensures !Headcount(e)
  {
    hide Members;
    assert e.cabins[cab].playing == Dec32(d.cabins[cab].playing) != d.cabins[cab].playing;
    assert d.cabins[cab].playing == |Members(d, cab)| % U32_RANGE;
  }

  lemma SameCounts(d: Deck, e: Deck)
    requires Headcount(d) && e.cabins == d.cabins
    requires forall k :: Members(e, k) == Members(d, k)
    ensures Headcount(e)
  {
    hide Members;
  }

  /** The client of this system never sends one: whenever the deck is about to handle a message, its sender has not
      quit. */
  lemma NobodySpeaksAfterQuitting(w: World)
    requires Reachable(w) && w.up != []
    ensures w.up[0] != [] && (Sender(w) in w.deck.clients ==> w.deck.clients[Sender(w)].online)
  {
    hide Reachable, Inv, OnRequest, OnServerInput, Affects, Extends, DeckInv, CrewRequest;
    ReachableInv(w);
    CrewStep(w, Shipdeck.AnEnumeration(w.deck.cabins.Keys));
  }

  /** A client that leaves a cabin, by whatever request, takes its name out of the cabin's set of users. So the cabins
      stay in step with the deck exactly if the request moves nobody out of a cabin in which somebody else bears the
      same name. */
  lemma SharedNameLosesTrack(d: Deck, s: string, c: string, request: Request, order: seq<string>)
    requires DeckInv(d) && Enumerates(order, d.cabins.Keys) && Serviceable(d, c)
    ensures Tracks(d, OnRequest(d, s, c, request, order))
       <==> !(Departs(d, c, request) && d.clients[c].cabin != ""
              && exists x :: x in Members(d, d.clients[c].cabin) && x != c
                          && d.clients[x].username == d.clients[c].username)
  {
    hide OnRequest, Tracks, Members, Departs, Replay, Routed, DeckInv, Extends;
    OnRequestSound(d, s, c, request, order);
  }

  /** A login takes the name it asks for over. If so far every online client was the addressee of its own name, the
      ones that still are after the login are exactly the newcomer and those under other names; an earlier bearer of the
      name is no longer sent anything from its cabin. */
  lemma SharedNameChangesHands(d: Deck, s: string, c: string, username: string, password: string, b: string)
    requires DeckInv(d) && Unique(d) && c !in d.clients
    ensures var e := Enroll(d, s, c, username, password).deck;
            && (Unique(e) <==> NameFree(d, username))
            && Addressee(e, username) == c
            && (b in d.clients && d.clients[b].online ==>
                  (Addressee(e, d.clients[b].username) == b <==> d.clients[b].username != username))
  {
    hide DeckInv, Enroll, Extends, Tracks, Silent, NameFree;
    EnrollUnique(d, s, c, username, password);
    EnrollSound(d, s, c, username, password);
  }

  /** The inner receive of a registration takes the next message of any cabin. If it is one of another cabin `k`, the
      awaited cabin is not entered, and `k` is entered instead. That leaves the deck's books and `k` as they should be
      exactly if the message is the info message of a cabin whose own registration had timed out. A SEND of a
      registered cabin is lost, books the cabin under the word SEND, and keeps its count right exactly if the cabin is
      empty (modulo 2^32); a REGISTRATION books its sender under that word in the middle of its handshake. */
  lemma ForeignFrame(d: Deck, awaited: string, k: string, p: CabinProc)
    requires DeckInv(d) && awaited !in d.cabins && k != awaited
    requires CabinOk(d, Some(awaited), k, p) && p.outbox != []
    ensures |Prefixed(k, p.outbox[0])| >= 3
    ensures var e := Enter(d, Prefixed(k, p.outbox[0]));
            && awaited !in e.cabins && k in e.cabins
            && (DeckInv(e) && CabinOk(e, None, k, p.(outbox := p.outbox[1..]))
                <==> k !in d.cabins && p.outbox[0] == InfoMsg(p.title, p.description))
            && (k in d.cabins ==>
                  && e.cabins[k].title == "SEND" && At(e.cabinIds, "SEND") == k
                  && (Headcount(e) <==> |Members(d, k)| % U32_RANGE == 0))
            && (k !in d.cabins && p.outbox[0] != InfoMsg(p.title, p.description) ==>
                  && e.cabins[k] == CabinInfo(k, "REGISTRATION", "JOIN", 0) && p.phase.Registering?)
  {
    if k in d.cabins {
      ForeignSend(d, k, p);
    } else {
      hide DeckInv;
      ForeignNewcomer(d, awaited, k, p);
    }
  }

  lemma ForeignSend(d: Deck, k: string, p: CabinProc)
    requires DeckInv(d) && k in d.cabins && Registered(d, p) && p.outbox != []
    ensures var m := p.outbox[0];
            var e := Enter(d, Prefixed(k, m));
            && |m| >= 2 && m[0] == "SEND" && |m| == 5
            && e.cabins[k].title == "SEND" && At(e.cabinIds, "SEND") == k
            && (Headcount(e) <==> |Members(d, k)| % U32_RANGE == 0)
            && !Ledgered(p.(outbox := p.outbox[1..]))
  {
    var copy := PendingSend(p);
    assert Prefixed(k, p.outbox[0])[1] == "SEND";
    EnterResetsCount(d, Prefixed(k, p.outbox[0]));
    assert |p.outbox[1..]| != |SendsOf(Copies(p.broadcasts)[|p.settled|..])|;
  }

  lemma ForeignNewcomer(d: Deck, awaited: string, k: string, p: CabinProc)
    requires DeckInv(d) && k !in d.cabins && k != awaited && k != "" && Titled(p.title, p.description)
    requires Unregistered(k, false, p) && p.outbox != []
    ensures var m := p.outbox[0];
            var e := Enter(d, Prefixed(k, m));
            && |m| >= 2
            && (m == InfoMsg(p.title, p.description) ==> DeckInv(e) && Registered(e, p.(outbox := p.outbox[1..])))
            && (m != InfoMsg(p.title, p.description) ==> m == REGISTRATION && p.phase.Registering?)
  {
    var m := p.outbox[0];
    if m == InfoMsg(p.title, p.description) {
      assert p.outbox[1..] == [] && Prefixed(k, m)[1] == p.title;
      EnterSound(d, Prefixed(k, m));
      NewcomerRegistered(Enter(d, Prefixed(k, m)), p.(outbox := []));
    }
  }

  /** Such a cabin takes the first message it is then sent for the reply to its registration, which a JOIN is not. */
  lemma JoinRefusesHandshake(p: CabinProc, username: string, order: seq<string>)
    requires p.phase.Registering? && p.inbox != [] && p.inbox[0] == ["JOIN", username]
    ensures CabinNext(p, order).phase.Refused?
  {
  }
}
