/** The class `ShipDeck`: the handlers as the source writes them, over mutable maps, each proved against the
    function of module Deck that specifies it. */
module Shipdeck {
  import opened Deck
  import opened Defines
  import opened Framing
  import opened Membership
  import opened Protocol
  import opened Wrappers

  class ShipDeck {
    var defaultCabin: string
    var cabinNameToId: map<string, string>
    var cabinIdToInfo: map<string, CabinInfo>
    var crewNameToId: map<string, string>
    var clientMap: map<string, ClientInfo>

    // What was sent through the two router sockets, one entry a message.
    var serverSent: seq<Frames>
    var cabinsSent: seq<Frames>

    ghost function View(): Deck
      reads this
    {
      Deck(clientMap, cabinIdToInfo, cabinNameToId, crewNameToId, defaultCabin)
    }

    /** The state is the reaction `r` applied to an old state with the given sent messages. */
    ghost predicate Follows(r: Reaction, server: seq<Frames>, cabins: seq<Frames>)
      reads this
    {
      View() == r.deck && serverSent == server + r.toServer && cabinsSent == cabins + r.toCabins
    }

    constructor ()
      ensures View() == NEW_DECK && serverSent == [] && cabinsSent == []
    {
      defaultCabin := "";
      cabinNameToId, cabinIdToInfo, crewNameToId, clientMap := map[], map[], map[], map[];
      serverSent, cabinsSent := [], [];
    }

    /** `cabin_name_to_id[name]` */
    method CabinIdOf(name: string) returns (id: string)
      modifies this`cabinNameToId
      ensures id == At(old(cabinNameToId), name)
      ensures cabinNameToId == With(old(cabinNameToId), name)
    {
      if name !in cabinNameToId {
        cabinNameToId := cabinNameToId[name := ""];
      }
      id := cabinNameToId[name];
    }

    /** `crew_name_to_id[name]` */
    method CrewIdOf(name: string) returns (id: string)
      modifies this`crewNameToId
      ensures id == At(old(crewNameToId), name)
      ensures crewNameToId == With(old(crewNameToId), name)
    {
      if name !in crewNameToId {
        crewNameToId := crewNameToId[name := ""];
      }
      id := crewNameToId[name];
    }

    /** `client_map[id]` */
    method ClientOf(id: string) returns (client: ClientInfo)
      modifies this`clientMap
      ensures client == ClientAt(old(clientMap), id)
      ensures clientMap == WithClient(old(clientMap), id)
    {
      if id !in clientMap {
        clientMap := clientMap[id := DEFAULT_CLIENT];
      }
      client := clientMap[id];
    }

    method ChangePlayerCabins(crewId: string, cabId: string)
      requires crewId in clientMap
      modifies this
      ensures Follows(ChangeCabin(old(View()), crewId, cabId), old(serverSent), old(cabinsSent))
    {
      if clientMap[crewId].online && cabId !in cabinIdToInfo {
        return;
      }
      var username := clientMap[crewId].username;
      var toDisconnect := clientMap[crewId].cabin;
      if toDisconnect != "" {
        if toDisconnect !in cabinIdToInfo {
          cabinIdToInfo := cabinIdToInfo[toDisconnect := DEFAULT_CABIN];
        }
        var info := cabinIdToInfo[toDisconnect];
        cabinIdToInfo := cabinIdToInfo[toDisconnect := info.(playing := Dec32(info.playing))];
      }
      cabinsSent := cabinsSent + [[toDisconnect, "DISCONNECT", username]];
      if clientMap[crewId].online && cabId in cabinIdToInfo {
        var info := cabinIdToInfo[cabId];
        cabinIdToInfo := cabinIdToInfo[cabId := info.(playing := Inc32(info.playing))];
        cabinsSent := cabinsSent + [[cabId, "JOIN", username]];
        clientMap := clientMap[crewId := clientMap[crewId].(cabin := cabId)];
      }
    }

    /** The append loop of `/showall`, over the cabins in the order in which the map yields them. */
    method ReportMp(header: Multipart<string>) returns (ghost order: seq<string>)
      modifies header
      ensures Enumerates(order, cabinIdToInfo.Keys)
      ensures header.parts == old(header.parts) + Report(order, cabinIdToInfo)
    {
      var cabins := cabinIdToInfo;
      var remaining := cabins.Keys;
      order := [];
      while remaining != {}
        invariant remaining <= cabins.Keys
        invariant Enumerates(order, cabins.Keys - remaining)
        invariant header.parts == old(header.parts) + Report(order, cabins)
        decreases |remaining|
      {
        var cab :| cab in remaining;
        var info := ZmqInfoMp(cabins[cab]);
        ReportOneMore(order, cab, cabins, old(header.parts));
        EnumeratesOneMore(order, cabins.Keys - remaining, cab);
        assert cabins.Keys - remaining + {cab} == cabins.Keys - (remaining - {cab});
        header.Append(info);
        remaining := remaining - {cab};
        order := order + [cab];
      }
      assert cabins.Keys - remaining == cabins.Keys;
    }

    /** The `/leave` branch of `HandleCrewmateInputCommand`. */
    method LeaveCommand(crewId: string)
      requires crewId in clientMap
      modifies this
      ensures Follows(LeaveCabin(old(View()), crewId), old(serverSent), old(cabinsSent))
    {
      var defaultId := CabinIdOf(defaultCabin);
      if clientMap[crewId].cabin != defaultId {
        ChangePlayerCabins(crewId, defaultId);
      }
    }

    /** The `/join` branch of `HandleCrewmateInputCommand`. */
    method JoinCommand(crewId: string, cabinName: string)
      requires crewId in clientMap
      modifies this
      ensures Follows(JoinCabin(old(View()), crewId, cabinName), old(serverSent), old(cabinsSent))
    {
      var cabId := CabinIdOf(cabinName);
      if cabId != clientMap[crewId].cabin {
        ChangePlayerCabins(crewId, cabId);
      }
    }

    /** The `/show` branch of `HandleCrewmateInputCommand`. */
    method ShowCommand(sId: string, crewId: string)
      requires crewId in clientMap
      modifies this
      ensures Follows(ShowCabin(old(View()), sId, crewId), old(serverSent), old(cabinsSent))
    {
      var current := clientMap[crewId].cabin;
      if current in cabinIdToInfo {
        var show := CrewHeaderMp(sId, crewId, "SHIP", "INFO");
        var info := ZmqInfoMp(cabinIdToInfo[current]);
        show.Append(info);
        serverSent := serverSent + [show.parts];
      }
    }

    /** The `/showall` branch of `HandleCrewmateInputCommand`. */
    method ShowAllCommand(sId: string, crewId: string) returns (ghost order: seq<string>)
      modifies this
      ensures Enumerates(order, old(cabinIdToInfo).Keys)
      ensures Follows(ShowAllCabins(old(View()), sId, crewId, order), old(serverSent), old(cabinsSent))
    {
      var all := CrewHeaderMp(sId, crewId, "SHIP", "INFO");
      order := ReportMp(all);
      serverSent := serverSent + [all.parts];
    }

    /** The `/quit` branch of `HandleCrewmateInputCommand`. */
    method QuitCommand(crewId: string)
      requires crewId in clientMap
      modifies this
      ensures Follows(QuitShip(old(View()), crewId), old(serverSent), old(cabinsSent))
    {
      clientMap := clientMap[crewId := clientMap[crewId].(online := false)];
      ChangePlayerCabins(crewId, "");
    }

    /** On sound books it does what module Protocol says the word does. */
    method HandleCrewmateInputCommand(input: Frames) returns (ghost order: seq<string>)
      requires |input| >= 5 && input[3] == "COMMAND" && (input[4] == "/join" ==> |input| >= 6)
      requires input[1] in clientMap
      modifies this
      ensures Enumerates(order, old(cabinIdToInfo).Keys)
      ensures Follows(OnCrew(old(View()), input, order), old(serverSent), old(cabinsSent))
      ensures DeckInv(old(View())) ==>
                ReactsToWord(old(View()), input[0], input[1], input[4], input[5..], order,
                             OnCrew(old(View()), input, order))
    {
      var command, crewId, sId := input[4], input[1], input[0];
      order := AnEnumeration(cabinIdToInfo.Keys);
      hide ChangeCabin, LeaveCabin, JoinCabin, ShowCabin, ShowAllCabins, QuitShip, ForwardText, Enroll, DeckInv,
        ReactsToWord;
      if command == "/leave" {
        LeaveCommand(crewId);
      } else if command == "/join" {
        JoinCommand(crewId, input[5]);
      } else if command == "/show" {
        ShowCommand(sId, crewId);
      } else if command == "/ping" {
        var heartbeat := CrewHeaderMp(sId, crewId, "SHIP", "ACK");
        serverSent := serverSent + [heartbeat.parts];
      } else if command == "/showall" {
        order := ShowAllCommand(sId, crewId);
      } else if command == "/quit" {
        QuitCommand(crewId);
      }
      CommandReacts(old(View()), input, order);
    }

    method HandleCrewmateInputText(input: Frames)
      requires |input| >= 5 && input[1] in clientMap
      modifies this`cabinsSent
      ensures cabinsSent == old(cabinsSent) + ForwardText(View(), input[1], input[4]).toCabins
    {
      var crewId := input[1];
      var current := clientMap[crewId].cabin;
      var username := clientMap[crewId].username;
      cabinsSent := cabinsSent + [[current, "TEXT", username, input[4]]];
    }

    /** The login branch of `HandleCrewmateInput`. */
    method Login(sId: string, crewId: string, username: string, password: string)
      modifies this
      ensures Follows(Enroll(old(View()), sId, crewId, username, password), old(serverSent), old(cabinsSent))
    {
      clientMap := clientMap[crewId := ClientInfo("", "", "", username, password, true)];
      clientMap := clientMap[crewId := clientMap[crewId].(serverId := sId)];
      clientMap := clientMap[crewId := clientMap[crewId].(id := crewId)];
      crewNameToId := crewNameToId[username := crewId];
      assert clientMap == old(clientMap)[crewId := ClientInfo(crewId, sId, "", username, password, true)];
      serverSent := serverSent + [[sId, crewId, "SHIP", "ACK"]];
      var defaultId := CabinIdOf(defaultCabin);
      ghost var sent := serverSent;
      ghost var named := View();
      ChangePlayerCabins(crewId, defaultId);
      assert ChangeCabin(named, crewId, defaultId).toServer == [];
      assert serverSent == sent;
    }

    /** `input` has at least as many frames as the handler indexes. */
    method HandleCrewmateInput(input: Frames) returns (ghost order: seq<string>)
      requires CrewIndexable(View(), input)
      modifies this
      ensures Enumerates(order, old(cabinIdToInfo).Keys)
      ensures Follows(OnCrew(old(View()), input, order), old(serverSent), old(cabinsSent))
    {
      order := AnEnumeration(cabinIdToInfo.Keys);
      if input[3] == "LOGIN" && input[1] !in clientMap {
        Login(input[0], input[1], input[4], input[5]);
      } else if input[1] !in clientMap {
        return;
      } else if input[3] == "COMMAND" {
        order := HandleCrewmateInputCommand(input);
      } else if input[3] == "TEXT" {
        HandleCrewmateInputText(input);
      }
    }

    /** The dispatch of `server_listener_worker`; the handlers of the other two kinds of sender do nothing. */
    method HandleServerInput(input: Frames) returns (ghost order: seq<string>)
      requires |input| >= 3
      requires input[2] == "CREW" ==> CrewIndexable(View(), input)
      modifies this
      ensures Enumerates(order, old(cabinIdToInfo).Keys)
      ensures Follows(OnServerInput(old(View()), input, order), old(serverSent), old(cabinsSent))
    {
      order := AnEnumeration(cabinIdToInfo.Keys);
      hide OnCrew, Enumerates;
      if input[2] == "CREW" {
        order := HandleCrewmateInput(input);
      }
    }

    /** `input` is a cabin's message and `reply` what the inner receive of a registration takes within its
        time limit, None if it takes nothing. */
    method HandleServicesCabinsInput(input: Frames, reply: Option<Frames>)
      requires !ServiceOf(input).Underflow?
      requires reply.Some? ==> |reply.value| >= 3
      modifies this
      ensures Follows(OnCabin(old(View()), input, reply), old(serverSent), old(cabinsSent))
    {
      if input[1] == "REGISTRATION" {
        if input[2] == "JOIN" && input[0] !in cabinIdToInfo {
          cabinsSent := cabinsSent + [[input[0], "SHIP", "SUCCESS", input[0]]];
          if reply.Some? {
            var gId, title, desc := reply.value[0], reply.value[1], reply.value[2];
            cabinNameToId := cabinNameToId[title := gId];
            cabinIdToInfo := cabinIdToInfo[gId := CabinInfo(gId, title, desc, 0)];
            if defaultCabin == "" {
              defaultCabin := title;
            }
          }
        }
      } else if input[1] == "SEND" {
        var crewId := CrewIdOf(input[3]);
        var client := ClientOf(crewId);
        if input[0] != client.cabin {
          return;
        }
        var messages := [client.serverId, crewId, "CABIN", input[2], input[4]];
        for i := 5 to |input|
          invariant messages == [client.serverId, crewId, "CABIN", input[2], input[4]] + input[5..i]
        {
          messages := messages + [input[i]];
        }
        assert input[5..|input|] == input[5..];
        serverSent := serverSent + [messages];
      }
    }
  }

  lemma ReportOneMore(order: seq<string>, cab: string, cabins: map<string, CabinInfo>, header: Frames)
    requires cab in cabins && forall i :: 0 <= i < |order| ==> order[i] in cabins
    ensures header + Report(order + [cab], cabins) == header + Report(order, cabins) + ZmqInfo(cabins[cab])
  {
    assert (order + [cab])[..|order|] == order;
  }

  /** A command as `handle_crewmate_input_command` indexes it. */
  lemma CommandReacts(d: Deck, input: Frames, order: seq<string>)
    requires |input| >= 5 && input[3] == "COMMAND" && (input[4] == "/join" ==> |input| >= 6)
    requires input[1] in d.clients && Enumerates(order, d.cabins.Keys)
    ensures DeckInv(d) ==>
              ReactsToWord(d, input[0], input[1], input[4], input[5..], order, OnCrew(d, input, order))
  {
    var frames := [input[0], input[1], "CREW", "COMMAND", input[4]] + input[5..];
    hide DeckInv, Enumerates, OnRequest, ReactsToWord;
    if DeckInv(d) {
      CommandMeaning(d, input[0], input[1], input[4], input[5..], order);
      assert RequestOf(frames) == RequestOf(input);
    }
  }

  lemma EnumeratesOneMore(order: seq<string>, s: set<string>, x: string)
    requires Enumerates(order, s) && x !in s
    ensures Enumerates(order + [x], s + {x})
  {
  }

  ghost function AnEnumeration<T(!new)>(s: set<T>): (order: seq<T>)
    ensures Enumerates(order, s)
  {
    if s == {} then [] else
      var x :| x in s;
      AnEnumeration(s - {x}) + [x]
  }
}
