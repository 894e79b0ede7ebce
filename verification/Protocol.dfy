/** The protocol on the wire: what the deck does with each kind of message, said on the frames themselves and on the
    entries of its maps. */
module Protocol {
  import opened Deck
  import opened Defines
  import opened Membership
  import opened Wrappers

  // ----- What a command does -----

  /** The cabins are the same but for their counts. */
  ghost predicate SameButCounts(d: Deck, e: Deck) {
    && e.cabins.Keys == d.cabins.Keys
    && forall cab :: cab in d.cabins ==>
         && e.cabins[cab].id == d.cabins[cab].id
         && e.cabins[cab].title == d.cabins[cab].title
         && e.cabins[cab].description == d.cabins[cab].description
  }

  /** The client moves to the cabin registered under the name, if there is one and it is not there already: its record
      names the new cabin, the 32-bit counts follow, the old cabin is told it left and the new one that it joined.
      Otherwise it stays where it is and no cabin is told anything. */
  ghost predicate MovesTo(d: Deck, c: string, name: string, e: Deck, orders: seq<Frames>)
    requires c in d.clients
  {
    var me := d.clients[c];
    && e.crewIds == d.crewIds && e.defaultCabin == d.defaultCabin
    && e.cabinIds == (if name in d.cabinIds then d.cabinIds else d.cabinIds[name := ""])
    && if name in d.cabinIds && d.cabinIds[name] in d.cabins && d.cabinIds[name] != me.cabin then
         var to := d.cabinIds[name];
         && e.clients == d.clients[c := me.(cabin := to)]
         && orders == [[me.cabin, "DISCONNECT", me.username], [to, "JOIN", me.username]]
         && SameButCounts(d, e)
         && (forall cab :: cab in d.cabins ==>
               e.cabins[cab].playing
               == (d.cabins[cab].playing + (if cab == to then 1 else 0) - if cab == me.cabin then 1 else 0)
                  % 0x1_0000_0000)
       else
         e.clients == d.clients && e.cabins == d.cabins && orders == []
  }

  /** The same request of a client that has quit: unless the name stands for the cabin in its record, that cabin counts
      one less and is told once more that the client left. */
  ghost predicate LeavesAgain(d: Deck, c: string, name: string, e: Deck, orders: seq<Frames>)
    requires c in d.clients
  {
    var me := d.clients[c];
    && e.crewIds == d.crewIds && e.defaultCabin == d.defaultCabin && e.clients == d.clients
    && e.cabinIds == (if name in d.cabinIds then d.cabinIds else d.cabinIds[name := ""])
    && if (if name in d.cabinIds then d.cabinIds[name] else "") != me.cabin then
         && orders == [[me.cabin, "DISCONNECT", me.username]]
         && SameButCounts(d, e)
         && (forall cab :: cab in d.cabins ==>
               e.cabins[cab].playing
               == (d.cabins[cab].playing - if cab == me.cabin then 1 else 0) % 0x1_0000_0000)
       else
         e.cabins == d.cabins && orders == []
  }

  /** What `/join` and `/leave` do, for a name. */
  ghost predicate AsksFor(d: Deck, c: string, name: string, e: Deck, orders: seq<Frames>)
    requires c in d.clients
  {
    if d.clients[c].online then MovesTo(d, c, name, e, orders) else LeavesAgain(d, c, name, e, orders)
  }

  /** The client goes offline; its cabin counts one less and is told it left. */
  ghost predicate Departure(d: Deck, c: string, e: Deck, orders: seq<Frames>)
    requires c in d.clients
  {
    var me := d.clients[c];
    && e.crewIds == d.crewIds && e.defaultCabin == d.defaultCabin && e.cabinIds == d.cabinIds
    && e.clients == d.clients[c := me.(online := false)]
    && orders == [[me.cabin, "DISCONNECT", me.username]]
    && SameButCounts(d, e)
    && (forall cab :: cab in d.cabins ==>
          e.cabins[cab].playing
          == (d.cabins[cab].playing - if cab == me.cabin then 1 else 0) % 0x1_0000_0000)
  }

  /** The answer holds the three lines of every cabin, in the given order, behind its first two frames. */
  ghost predicate ListsCabins(d: Deck, order: seq<string>, answer: Frames)
    requires Enumerates(order, d.cabins.Keys)
  {
    && |answer| == 2 + 3 * |order|
    && answer[0] == "SHIP" && answer[1] == "INFO"
    && forall i :: 0 <= i < |order| ==>
         && answer[2 + 3 * i] == "Cabin name: " + d.cabins[order[i]].title
         && answer[3 + 3 * i] == "Cabin description: " + d.cabins[order[i]].description
         && answer[4 + 3 * i] == "Current playing: " + Decimal(|Members(d, order[i])| % 0x1_0000_0000)
  }

  /** What a command of a client on the books does: the deck afterwards, the answers to the client, and the orders to
      the cabins, each behind the id of its cabin. */
  ghost predicate WordDoes(d: Deck, c: string, word: string, args: Frames, order: seq<string>,
                           e: Deck, answers: seq<Frames>, orders: seq<Frames>)
    requires c in d.clients && Enumerates(order, d.cabins.Keys) && (word == "/join" ==> args != [])
  {
    var cab := d.clients[c].cabin;
    if word == "/leave" then AsksFor(d, c, d.defaultCabin, e, orders) && answers == []
    else if word == "/join" then AsksFor(d, c, args[0], e, orders) && answers == []
    else if word == "/quit" then Departure(d, c, e, orders) && answers == []
    else
      && e == d && orders == []
      && if word == "/ping" then answers == [["SHIP", "ACK"]]
         else if word == "/show" then
           answers == if cab !in d.cabins then []
                      else [["SHIP", "INFO",
                             "Cabin name: " + d.cabins[cab].title,
                             "Cabin description: " + d.cabins[cab].description,
                             "Current playing: " + Decimal(|Members(d, cab)| % 0x1_0000_0000)]]
         else if word == "/showall" then |answers| == 1 && ListsCabins(d, order, answers[0])
         else answers == []
  }

  /** The messages to the server are the answers, each behind the server's and the client's id. */
  ghost predicate SentBy(s: string, c: string, answers: seq<Frames>, toServer: seq<Frames>) {
    |toServer| == |answers| && forall i :: 0 <= i < |answers| ==> toServer[i] == [s, c] + answers[i]
  }

  /** The reaction is that of the command, for some answers. */
  ghost predicate ReactsToWord(d: Deck, s: string, c: string, word: string, args: Frames, order: seq<string>,
                               r: Reaction)
    requires c in d.clients && Enumerates(order, d.cabins.Keys) && (word == "/join" ==> args != [])
  {
    exists answers :: WordDoes(d, c, word, args, order, r.deck, answers, r.toCabins)
                   && SentBy(s, c, answers, r.toServer)
  }

  lemma LookedUp(d: Deck, c: string, name: string)
    requires DeckInv(d) && c in d.clients
    ensures "" !in d.cabins
    ensures d.clients[c].cabin == "" || d.clients[c].cabin in d.cabins
    ensures At(d.cabinIds, name) == "" || At(d.cabinIds, name) in d.cabins
  {
    hide Headcount, Defaulted;
  }

  /** A lookup of a name and a move to what it stands for: the two steps of `/leave` and `/join`. */
  lemma LookupMoves(d: Deck, c: string, name: string)
    requires DeckInv(d) && c in d.clients && d.clients[c].online
    ensures var r := JoinCabin(d, c, name); MovesTo(d, c, name, r.deck, r.toCabins) && r.toServer == []
  {
    LookedUp(d, c, name);
    hide DeckInv, SameButCounts, MovesTo;
    var target := At(d.cabinIds, name);
    if target in d.cabins && target != d.clients[c].cabin {
      MoveCounts(d, c, name);
    } else {
      assert JoinCabin(d, c, name) == Reaction(d.(cabinIds := With(d.cabinIds, name)), [], []);
      StaysPut(d, c, name);
    }
  }

  lemma StaysPut(d: Deck, c: string, name: string)
    requires c in d.clients && !(At(d.cabinIds, name) in d.cabins && At(d.cabinIds, name) != d.clients[c].cabin)
    ensures MovesTo(d, c, name, d.(cabinIds := With(d.cabinIds, name)), [])
  {
  }

  lemma MoveCounts(d: Deck, c: string, name: string)
    requires c in d.clients && d.clients[c].online && "" !in d.cabins
    requires d.clients[c].cabin == "" || d.clients[c].cabin in d.cabins
    requires At(d.cabinIds, name) in d.cabins && At(d.cabinIds, name) != d.clients[c].cabin
    ensures var r := JoinCabin(d, c, name); MovesTo(d, c, name, r.deck, r.toCabins) && r.toServer == []
  {
  }

  lemma LookupLeavesAgain(d: Deck, c: string, name: string)
    requires DeckInv(d) && c in d.clients && !d.clients[c].online
    ensures var r := JoinCabin(d, c, name); LeavesAgain(d, c, name, r.deck, r.toCabins) && r.toServer == []
  {
    LookedUp(d, c, name);
    hide DeckInv, LeavesAgain, ChangeCabin;
    var known := d.(cabinIds := With(d.cabinIds, name));
    if At(d.cabinIds, name) == d.clients[c].cabin {
      assert JoinCabin(d, c, name) == Reaction(known, [], []);
      NothingLeft(d, c, name);
    } else {
      assert JoinCabin(d, c, name) == ChangeCabin(known, c, At(d.cabinIds, name));
      LeavesOnceMore(d, c, name);
    }
  }

  lemma NothingLeft(d: Deck, c: string, name: string)
    requires c in d.clients && At(d.cabinIds, name) == d.clients[c].cabin
    ensures LeavesAgain(d, c, name, d.(cabinIds := With(d.cabinIds, name)), [])
  {
  }

  lemma LeavesOnceMore(d: Deck, c: string, name: string)
    requires c in d.clients && !d.clients[c].online && At(d.cabinIds, name) != d.clients[c].cabin
    requires "" !in d.cabins && (d.clients[c].cabin == "" || d.clients[c].cabin in d.cabins)
    ensures var r := ChangeCabin(d.(cabinIds := With(d.cabinIds, name)), c, At(d.cabinIds, name));
            LeavesAgain(d, c, name, r.deck, r.toCabins) && r.toServer == []
  {
  }

  lemma LookupAsks(d: Deck, c: string, name: string)
    requires DeckInv(d) && c in d.clients
    ensures var r := JoinCabin(d, c, name); AsksFor(d, c, name, r.deck, r.toCabins) && r.toServer == []
  {
    hide DeckInv, MovesTo, LeavesAgain, JoinCabin;
    if d.clients[c].online {
      LookupMoves(d, c, name);
    } else {
      LookupLeavesAgain(d, c, name);
    }
  }

  lemma QuitDeparts(d: Deck, c: string)
    requires DeckInv(d) && c in d.clients
    ensures var r := QuitShip(d, c); Departure(d, c, r.deck, r.toCabins) && r.toServer == []
  {
    LookedUp(d, c, "");
    hide DeckInv, Departure;
    var gone := d.(clients := d.clients[c := d.clients[c].(online := false)]);
    assert QuitShip(d, c).toServer == [];
    DepartureCounts(d, gone, c);
  }

  lemma DepartureCounts(d: Deck, gone: Deck, c: string)
    requires c in d.clients && "" !in d.cabins && gone == d.(clients := d.clients[c := d.clients[c].(online := false)])
    requires d.clients[c].cabin == "" || d.clients[c].cabin in d.cabins
    ensures var r := ChangeCabin(gone, c, ""); Departure(d, c, r.deck, r.toCabins)
  {
    var r := ChangeCabin(gone, c, "");
    assert r.toCabins == [[d.clients[c].cabin, "DISCONNECT", d.clients[c].username]];
  }

  lemma BooksCount(d: Deck)
    requires DeckInv(d)
    ensures Headcount(d)
  {
    hide Headcount;
  }

  lemma CountShown(d: Deck, cab: string)
    requires Headcount(d) && cab in d.cabins
    ensures d.cabins[cab].playing == |Members(d, cab)| % 0x1_0000_0000
  {
  }

  /** The three lines of a report that start at a place. */
  ghost predicate ThreeLines(d: Deck, cab: string, lines: Frames)
    requires cab in d.cabins
  {
    lines == ["Cabin name: " + d.cabins[cab].title,
              "Cabin description: " + d.cabins[cab].description,
              "Current playing: " + Decimal(|Members(d, cab)| % 0x1_0000_0000)]
  }

  lemma InfoIsThreeLines(d: Deck, cab: string)
    requires Headcount(d) && cab in d.cabins
    ensures ThreeLines(d, cab, ZmqInfo(d.cabins[cab]))
  {
    CountShown(d, cab);
    hide Headcount, Members, Decimal;
  }

  lemma ListsReport(d: Deck, order: seq<string>, report: Frames)
    requires Enumerates(order, d.cabins.Keys) && |report| == 3 * |order|
    requires forall i :: 0 <= i < |order| ==> ThreeLines(d, order[i], report[3 * i..3 * i + 3])
    ensures ListsCabins(d, order, ["SHIP", "INFO"] + report)
  {
    hide Members, Decimal;
    var answer := ["SHIP", "INFO"] + report;
    forall i | 0 <= i < |order|
      ensures && answer[2 + 3 * i] == "Cabin name: " + d.cabins[order[i]].title
              && answer[3 + 3 * i] == "Cabin description: " + d.cabins[order[i]].description
              && answer[4 + 3 * i] == "Current playing: " + Decimal(|Members(d, order[i])| % 0x1_0000_0000)
    {
      var lines := report[3 * i..3 * i + 3];
      assert ThreeLines(d, order[i], lines);
      assert answer[2 + 3 * i] == lines[0] && answer[3 + 3 * i] == lines[1] && answer[4 + 3 * i] == lines[2];
    }
  }

  lemma ReportLists(d: Deck, order: seq<string>)
    requires Headcount(d) && Enumerates(order, d.cabins.Keys)
    ensures ListsCabins(d, order, ["SHIP", "INFO"] + Report(order, d.cabins))
  {
    var report := Report(order, d.cabins);
    ReportFidelity(order, d.cabins);
    hide Report, Headcount, Listings, ReadReport, ListsCabins, ThreeLines, ZmqInfo;
    forall i | 0 <= i < |order|
      ensures ThreeLines(d, order[i], report[3 * i..3 * i + 3])
    {
      ReportAt(order, d.cabins, i);
      InfoIsThreeLines(d, order[i]);
    }
    ListsReport(d, order, report);
  }

  lemma ShowAllLists(d: Deck, s: string, c: string, order: seq<string>)
    requires Headcount(d) && Enumerates(order, d.cabins.Keys)
    ensures ListsCabins(d, order, ["SHIP", "INFO"] + Report(order, d.cabins))
    ensures ShowAllCabins(d, s, c, order)
         == Reaction(d, [[s, c] + (["SHIP", "INFO"] + Report(order, d.cabins))], [])
  {
    ReportLists(d, order);
    hide Report, Headcount, ListsCabins, Enumerates;
    assert CrewHeader(s, c, "SHIP", "INFO") + Report(order, d.cabins)
        == [s, c] + (["SHIP", "INFO"] + Report(order, d.cabins));
  }

  lemma ShowShows(d: Deck, s: string, c: string)
    requires Headcount(d) && c in d.clients && d.clients[c].cabin in d.cabins
    ensures var cab := d.clients[c].cabin;
            var answer := ["SHIP", "INFO",
                           "Cabin name: " + d.cabins[cab].title,
                           "Cabin description: " + d.cabins[cab].description,
                           "Current playing: " + Decimal(|Members(d, cab)| % 0x1_0000_0000)];
            ShowCabin(d, s, c) == Reaction(d, [[s, c] + answer], [])
  {
    var info := d.cabins[d.clients[c].cabin];
    CountShown(d, d.clients[c].cabin);
    hide Headcount, Members, Decimal;
    assert ["SHIP", "INFO"] + ZmqInfo(info)
        == ["SHIP", "INFO", "Cabin name: " + info.title, "Cabin description: " + info.description,
            "Current playing: " + Decimal(info.playing)];
    assert CrewHeader(s, c, "SHIP", "INFO") + ZmqInfo(info) == [s, c] + (["SHIP", "INFO"] + ZmqInfo(info));
  }

  lemma Answer(s: string, c: string, answer: Frames)
    ensures SentBy(s, c, [answer], [[s, c] + answer])
  {
  }

  lemma CommandRequest(s: string, c: string, word: string, args: Frames)
    requires word == "/join" ==> args != []
    ensures RequestOf([s, c, "CREW", "COMMAND", word] + args)
         == if word == "/leave" then Leave
            else if word == "/join" then Join(args[0])
            else if word == "/show" then Show
            else if word == "/ping" then Ping
            else if word == "/showall" then ShowAll
            else if word == "/quit" then Quit
            else Ignored
  {
    var input := [s, c, "CREW", "COMMAND", word] + args;
    assert input[3] == "COMMAND" && input[4] == word;
    if word == "/join" {
      assert input[5] == args[0];
    }
  }

  lemma MovingWords(d: Deck, s: string, c: string, word: string, args: Frames, order: seq<string>)
    requires DeckInv(d) && c in d.clients && Enumerates(order, d.cabins.Keys)
    requires (word == "/join" && args != []) || word == "/leave" || word == "/quit"
    ensures ReactsToWord(d, s, c, word, args, order,
                         if word == "/join" then JoinCabin(d, c, args[0])
                         else if word == "/leave" then LeaveCabin(d, c)
                         else QuitShip(d, c))
  {
    hide DeckInv, AsksFor, Departure, Enumerates, JoinCabin, LeaveCabin, QuitShip;
    var r := if word == "/join" then JoinCabin(d, c, args[0])
             else if word == "/leave" then LeaveCabin(d, c)
             else QuitShip(d, c);
    if word == "/leave" {
      LeaveIsJoin(d, c);
      LookupAsks(d, c, d.defaultCabin);
    } else if word == "/join" {
      LookupAsks(d, c, args[0]);
    } else {
      QuitDeparts(d, c);
    }
    assert WordDoes(d, c, word, args, order, r.deck, [], r.toCabins) && SentBy(s, c, [], r.toServer);
  }

  lemma ShowAllMeaning(d: Deck, s: string, c: string, args: Frames, order: seq<string>)
    requires DeckInv(d) && c in d.clients && Enumerates(order, d.cabins.Keys)
    ensures ReactsToWord(d, s, c, "/showall", args, order, ShowAllCabins(d, s, c, order))
  {
    BooksCount(d);
    ShowAllLists(d, s, c, order);
    hide DeckInv, Headcount, ListsCabins, Enumerates, ShowAllCabins, Report;
    var answers, r := [["SHIP", "INFO"] + Report(order, d.cabins)], ShowAllCabins(d, s, c, order);
    Answer(s, c, answers[0]);
    assert WordDoes(d, c, "/showall", args, order, r.deck, answers, r.toCabins) && SentBy(s, c, answers, r.toServer);
  }

  lemma ShowMeaning(d: Deck, s: string, c: string, args: Frames, order: seq<string>)
    requires DeckInv(d) && c in d.clients && Enumerates(order, d.cabins.Keys)
    ensures ReactsToWord(d, s, c, "/show", args, order, ShowCabin(d, s, c))
  {
    var cab, r := d.clients[c].cabin, ShowCabin(d, s, c);
    var answers: seq<Frames> := [];
    BooksCount(d);
    hide DeckInv, Headcount, ListsCabins, Enumerates, Members, Decimal, ZmqInfo;
    if cab in d.cabins {
      ShowShows(d, s, c);
      answers := [["SHIP", "INFO",
                   "Cabin name: " + d.cabins[cab].title,
                   "Cabin description: " + d.cabins[cab].description,
                   "Current playing: " + Decimal(|Members(d, cab)| % 0x1_0000_0000)]];
      Answer(s, c, answers[0]);
    }
    assert WordDoes(d, c, "/show", args, order, r.deck, answers, r.toCabins) && SentBy(s, c, answers, r.toServer);
  }

  lemma OtherWords(d: Deck, s: string, c: string, word: string, args: Frames, order: seq<string>)
    requires c in d.clients && Enumerates(order, d.cabins.Keys)
    requires word !in {"/leave", "/join", "/quit", "/show", "/showall"}
    ensures ReactsToWord(d, s, c, word, args, order,
                         Reaction(d, if word == "/ping" then [[s, c, "SHIP", "ACK"]] else [], []))
  {
    hide Enumerates;
    var answers := if word == "/ping" then [["SHIP", "ACK"]] else [];
    assert [s, c] + ["SHIP", "ACK"] == [s, c, "SHIP", "ACK"];
    var toServer := if word == "/ping" then [[s, c, "SHIP", "ACK"]] else [];
    assert WordDoes(d, c, word, args, order, d, answers, []) && SentBy(s, c, answers, toServer);
  }

  /** What each command does, on its frames: what the deck does with [server id, client id, "CREW", "COMMAND", word,
      arguments...] from a client on the books. */
  lemma CommandMeaning(d: Deck, s: string, c: string, word: string, args: Frames, order: seq<string>)
    requires DeckInv(d) && c in d.clients && Enumerates(order, d.cabins.Keys)
    requires word == "/join" ==> args != []
    ensures ReactsToWord(d, s, c, word, args, order,
                         OnServerInput(d, [s, c, "CREW", "COMMAND", word] + args, order))
  {
    var input := [s, c, "CREW", "COMMAND", word] + args;
    CommandRequest(s, c, word, args);
    assert OnServerInput(d, input, order) == OnRequest(d, s, c, RequestOf(input), order);
    hide DeckInv, Enumerates, RequestOf, OnServerInput, ReactsToWord, JoinCabin, LeaveCabin, QuitShip, ShowCabin,
      ShowAllCabins;
    if word == "/leave" || word == "/join" || word == "/quit" {
      MovingWords(d, s, c, word, args, order);
    } else if word == "/show" {
      ShowMeaning(d, s, c, args, order);
    } else if word == "/showall" {
      ShowAllMeaning(d, s, c, args, order);
    } else {
      OtherWords(d, s, c, word, args, order);
    }
  }

  // ----- What the other messages of the crew do -----

  /** A text goes to the sender's cabin under the sender's name, and changes nothing. */
  lemma TextMeaning(d: Deck, s: string, c: string, text: string, rest: Frames, order: seq<string>)
    requires c in d.clients && Enumerates(order, d.cabins.Keys)
    ensures var r := OnServerInput(d, [s, c, "CREW", "TEXT", text] + rest, order);
            && r.deck == d && r.toServer == []
            && r.toCabins == [[d.clients[c].cabin, "TEXT", d.clients[c].username, text]]
  {
    var input := [s, c, "CREW", "TEXT", text] + rest;
    assert input[3] == "TEXT" && input[4] == text;
    hide Enumerates;
  }

  /** The newcomer is on the books under its two ids, its name and its password, online and in the default cabin, if
      there is one, where it is counted; the name stands for it from now on. It is sent an ACK, and the cabin that it
      joined. */
  ghost predicate Enrolled(d: Deck, s: string, c: string, username: string, password: string, r: Reaction) {
    && r.toServer == [[s, c, "SHIP", "ACK"]]
    && r.deck.crewIds == d.crewIds[username := c]
    && r.deck.defaultCabin == d.defaultCabin
    && SameButCounts(d, r.deck)
    && if d.defaultCabin in d.cabinIds && d.cabinIds[d.defaultCabin] in d.cabins then
         var to := d.cabinIds[d.defaultCabin];
         && r.deck.clients == d.clients[c := ClientInfo(id := c, serverId := s, cabin := to, username := username,
                                                        password := password, online := true)]
         && r.toCabins == [["", "DISCONNECT", username], [to, "JOIN", username]]
         && (forall cab :: cab in d.cabins ==>
               r.deck.cabins[cab].playing
               == (d.cabins[cab].playing + if cab == to then 1 else 0) % 0x1_0000_0000)
       else
         && r.deck.clients == d.clients[c := ClientInfo(id := c, serverId := s, cabin := "", username := username,
                                                        password := password, online := true)]
         && r.toCabins == [] && r.deck.cabins == d.cabins
  }

  lemma LoginMeaning(d: Deck, s: string, c: string, username: string, password: string, rest: Frames,
                     order: seq<string>)
    requires DeckInv(d) && c !in d.clients && Enumerates(order, d.cabins.Keys)
    ensures Enrolled(d, s, c, username, password,
                     OnServerInput(d, [s, c, "CREW", "LOGIN", username, password] + rest, order))
  {
    var input := [s, c, "CREW", "LOGIN", username, password] + rest;
    assert input[3] == "LOGIN" && input[4] == username && input[5] == password;
    assert At(d.cabinIds, d.defaultCabin) == "" || At(d.cabinIds, d.defaultCabin) in d.cabins;
    assert "" !in d.cabins;
    hide DeckInv, Enumerates;
    assert OnServerInput(d, input, order) == Enroll(d, s, c, username, password);
    hide OnServerInput, RequestOf;
    EnrollEnrolls(d, s, c, username, password);
  }

  lemma EnrollEnrolls(d: Deck, s: string, c: string, username: string, password: string)
    requires At(d.cabinIds, d.defaultCabin) == "" || At(d.cabinIds, d.defaultCabin) in d.cabins
    requires "" !in d.cabins && c !in d.clients
    ensures Enrolled(d, s, c, username, password, Enroll(d, s, c, username, password))
  {
  }

  /** Everything else is without effect: messages that are not the crew's, all but logins of unknown clients, and all
      but commands and texts of known ones. */
  lemma NothingElse(d: Deck, input: Frames, order: seq<string>)
    requires Enumerates(order, d.cabins.Keys) && |input| >= 4
    requires || input[2] != "CREW"
             || (input[1] !in d.clients && input[3] != "LOGIN")
             || (input[1] in d.clients && input[3] != "COMMAND" && input[3] != "TEXT")
    ensures OnServerInput(d, input, order) == Reaction(d, [], [])
  {
    hide Enumerates;
  }

  // ----- What the messages of a cabin do -----

  /** A SEND for a name on the books reaches the client the name stands for, under the ids in its record, if that record
      names the sending cabin; one for an unknown name reaches nobody. */
  lemma SendMeaning(d: Deck, cab: string, kind: string, username: string, sender: string, rest: Frames,
                    reply: Option<Frames>)
    requires Directory(d) && (reply.Some? ==> |reply.value| >= 3)
    ensures var r := OnCabin(d, [cab, "SEND", kind, username, sender] + rest, reply);
            && r.toCabins == []
            && (username in d.crewIds ==>
                  var c := d.crewIds[username];
                  && r.deck == d && c in d.clients
                  && r.toServer == if d.clients[c].cabin == cab
                                   then [[d.clients[c].serverId, c, "CABIN", kind, sender] + rest]
                                   else [])
            && (username !in d.crewIds && "" !in d.clients && cab != "" ==> r.toServer == [])
  {
    var input := [cab, "SEND", kind, username, sender] + rest;
    assert input[1] == "SEND" && input[5..] == rest;
    assert input[2] == kind && input[3] == username && input[4] == sender;
  }

  /** A registration of an unknown cabin is answered with the cabin's id, and enters what the info message says, if
      there is one; of a known cabin it is ignored. */
  lemma RegistrationMeaning(d: Deck, cab: string, rest: Frames, from: string, title: string, description: string,
                            more: Frames)
    ensures var input := [cab, "REGISTRATION", "JOIN"] + rest;
            if cab in d.cabins then
              OnCabin(d, input, None) == OnCabin(d, input, Some([from, title, description] + more))
              == Reaction(d, [], [])
            else
              && OnCabin(d, input, None) == Reaction(d, [], [[cab, "SHIP", "SUCCESS", cab]])
              && OnCabin(d, input, Some([from, title, description] + more))
                 == Reaction(d.(cabinIds := d.cabinIds[title := from],
                                cabins := d.cabins[from := CabinInfo(id := from, title := title,
                                                                     description := description, playing := 0)],
                                defaultCabin := if d.defaultCabin == "" then title else d.defaultCabin),
                             [], [[cab, "SHIP", "SUCCESS", cab]])
  {
    var input, info := [cab, "REGISTRATION", "JOIN"] + rest, [from, title, description] + more;
    assert input[1] == "REGISTRATION" && input[2] == "JOIN";
    assert info[0] == from && info[1] == title && info[2] == description;
  }

  /** No other message of a cabin does anything. */
  lemma NothingElseOfCabin(d: Deck, input: Frames, reply: Option<Frames>)
    requires |input| >= 3 && (reply.Some? ==> |reply.value| >= 3)
    requires input[1] != "SEND" && (input[1] == "REGISTRATION" ==> input[2] != "JOIN")
    ensures OnCabin(d, input, reply) == Reaction(d, [], [])
  {
  }
}
