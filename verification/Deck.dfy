/** The ship deck as a value: its four maps and default cabin, the requests it recognises in a message, and
    what each of its handlers does to the maps and sends. The class in Shipdeck.dfy refines these functions.

    A `std::unordered_map` inserts a default entry when `operator[]` meets an unknown key; the `With` functions
    below model that insertion. */
module Deck {
  import opened Defines
  import opened Wrappers

  datatype Deck = Deck(
    clients: map<string, ClientInfo>,
    cabins: map<string, CabinInfo>,
    cabinIds: map<string, string>,
    crewIds: map<string, string>,
    defaultCabin: string)

  const NEW_DECK := Deck(map[], map[], map[], map[], "")

  /** The deck after a handler, and the messages it sent to the server and to the cabins, in order. Each message
      starts with the id it is routed to. */
  datatype Reaction = Reaction(deck: Deck, toServer: seq<Frames>, toCabins: seq<Frames>)

  function At(ids: map<string, string>, key: string): string {
    if key in ids then ids[key] else ""
  }

  function With(ids: map<string, string>, key: string): map<string, string> {
    if key in ids then ids else ids[key := ""]
  }

  function InfoAt(cabins: map<string, CabinInfo>, id: string): CabinInfo {
    if id in cabins then cabins[id] else DEFAULT_CABIN
  }

  function ClientAt(clients: map<string, ClientInfo>, id: string): ClientInfo {
    if id in clients then clients[id] else DEFAULT_CLIENT
  }

  function WithClient(clients: map<string, ClientInfo>, id: string): map<string, ClientInfo> {
    if id in clients then clients else clients[id := DEFAULT_CLIENT]
  }

  // ----- Crew messages: [server id, client id, "CREW", type, arguments...] -----

  datatype Request =
    | Login(username: string, password: string)
    | Leave | Join(cabinName: string) | Show | Ping | ShowAll | Quit
    | Say(text: string)
    | Ignored
    | Malformed

  /** The request a crew message makes. Malformed stands for a message with fewer frames than its handler
      indexes, which the source reads out of bounds. */
  function RequestOf(input: Frames): Request {
    if |input| < 4 then Malformed
    else if input[3] == "LOGIN" then if |input| < 6 then Malformed else Login(input[4], input[5])
    else if input[3] == "COMMAND" then
      if |input| < 5 then Malformed
      else if input[4] == "/leave" then Leave
      else if input[4] == "/join" then if |input| < 6 then Malformed else Join(input[5])
      else if input[4] == "/show" then Show
      else if input[4] == "/ping" then Ping
      else if input[4] == "/showall" then ShowAll
      else if input[4] == "/quit" then Quit
      else Ignored
    else if input[3] == "TEXT" then if |input| < 5 then Malformed else Say(input[4])
    else Ignored
  }

  /** The frames `handle_crewmate_input` indexes are there. */
  predicate CrewIndexable(d: Deck, input: Frames) {
    && |input| >= 4
    && if input[1] in d.clients then
         && (input[3] == "COMMAND" ==> |input| >= 5 && (input[4] == "/join" ==> |input| >= 6))
         && (input[3] == "TEXT" ==> |input| >= 5)
       else
         input[3] == "LOGIN" ==> |input| >= 6
  }

  /** `change_player_cabins` */
  function ChangeCabin(d: Deck, c: string, cab: string): Reaction
    requires c in d.clients
  {
    var me := d.clients[c];
    if me.online && cab !in d.cabins then Reaction(d, [], [])
    else
      var from := me.cabin;
      var info := InfoAt(d.cabins, from);
      var left := if from == "" then d else d.(cabins := d.cabins[from := info.(playing := Dec32(info.playing))]);
      var bye := [from, "DISCONNECT", me.username];
      if me.online && cab in left.cabins then
        var target := left.cabins[cab];
        Reaction(left.(cabins := left.cabins[cab := target.(playing := Inc32(target.playing))],
                       clients := left.clients[c := me.(cabin := cab)]),
                 [], [bye, [cab, "JOIN", me.username]])
      else
        Reaction(left, [], [bye])
  }

  /** The login branch of `handle_crewmate_input`. */
  function Enroll(d: Deck, s: string, c: string, username: string, password: string): Reaction {
    var named := d.(clients := d.clients[c := ClientInfo(c, s, "", username, password, true)],
                    crewIds := d.crewIds[username := c],
                    cabinIds := With(d.cabinIds, d.defaultCabin));
    var moved := ChangeCabin(named, c, At(d.cabinIds, d.defaultCabin));
    moved.(toServer := [[s, c, "SHIP", "ACK"]])
  }

  function LeaveCabin(d: Deck, c: string): Reaction
    requires c in d.clients
  {
    var known := d.(cabinIds := With(d.cabinIds, d.defaultCabin));
    var target := At(d.cabinIds, d.defaultCabin);
    if d.clients[c].cabin != target then ChangeCabin(known, c, target) else Reaction(known, [], [])
  }

  function JoinCabin(d: Deck, c: string, name: string): Reaction
    requires c in d.clients
  {
    var known := d.(cabinIds := With(d.cabinIds, name));
    var target := At(d.cabinIds, name);
    if target != d.clients[c].cabin then ChangeCabin(known, c, target) else Reaction(known, [], [])
  }

  function ShowCabin(d: Deck, s: string, c: string): Reaction
    requires c in d.clients
  {
    var cab := d.clients[c].cabin;
    Reaction(d, if cab in d.cabins then [CrewHeader(s, c, "SHIP", "INFO") + ZmqInfo(d.cabins[cab])] else [], [])
  }

  function ShowAllCabins(d: Deck, s: string, c: string, order: seq<string>): Reaction
    requires Enumerates(order, d.cabins.Keys)
  {
    Reaction(d, [CrewHeader(s, c, "SHIP", "INFO") + Report(order, d.cabins)], [])
  }

  function QuitShip(d: Deck, c: string): Reaction
    requires c in d.clients
  {
    ChangeCabin(d.(clients := d.clients[c := d.clients[c].(online := false)]), c, "")
  }

  /** `handle_crewmate_input_text` */
  function ForwardText(d: Deck, c: string, text: string): Reaction
    requires c in d.clients
  {
    Reaction(d, [], [[d.clients[c].cabin, "TEXT", d.clients[c].username, text]])
  }

  /** The branches of `handle_crewmate_input`; `order` is the iteration order of the cabin map. */
  function OnRequest(d: Deck, s: string, c: string, request: Request, order: seq<string>): Reaction
    requires Enumerates(order, d.cabins.Keys)
  {
    if request.Login? && c !in d.clients then Enroll(d, s, c, request.username, request.password)
    else if c !in d.clients then Reaction(d, [], [])
    else match request
      case Leave => LeaveCabin(d, c)
      case Join(name) => JoinCabin(d, c, name)
      case Show => ShowCabin(d, s, c)
      case Ping => Reaction(d, [[s, c, "SHIP", "ACK"]], [])
      case ShowAll => ShowAllCabins(d, s, c, order)
      case Quit => QuitShip(d, c)
      case Say(text) => ForwardText(d, c, text)
      case _ => Reaction(d, [], [])
  }

  /** `handle_crewmate_input` */
  function OnCrew(d: Deck, input: Frames, order: seq<string>): Reaction
    requires Enumerates(order, d.cabins.Keys)
  {
    if |input| < 4 then Reaction(d, [], []) else OnRequest(d, input[0], input[1], RequestOf(input), order)
  }

  /** The dispatch in `server_listener_worker`: the handlers of the other two senders do nothing. */
  function OnServerInput(d: Deck, input: Frames, order: seq<string>): Reaction
    requires Enumerates(order, d.cabins.Keys)
  {
    if |input| >= 3 && input[2] == "CREW" then OnCrew(d, input, order) else Reaction(d, [], [])
  }

  // ----- Cabin messages: [cabin id, command, arguments...] -----

  datatype Service =
    | Register
    | Send(kind: string, username: string, sender: string, rest: Frames)
    | Unserved
    | Underflow

  function ServiceOf(input: Frames): Service {
    if |input| < 2 then Underflow
    else if input[1] == "REGISTRATION" then
      if |input| < 3 then Underflow else if input[2] == "JOIN" then Register else Unserved
    else if input[1] == "SEND" then
      if |input| < 5 then Underflow else Send(input[2], input[3], input[4], input[5..])
    else Unserved
  }

  /** The reply to a registration. */
  function Greet(d: Deck, cab: string): Reaction {
    Reaction(d, [], [[cab, "SHIP", "SUCCESS", cab]])
  }

  /** What the inner receive of a registration does with the frame it takes: [id, title, description, ...]. */
  function Enter(d: Deck, info: Frames): Deck
    requires |info| >= 3
  {
    d.(cabinIds := d.cabinIds[info[1] := info[0]],
       cabins := d.cabins[info[0] := CabinInfo(info[0], info[1], info[2], 0)],
       defaultCabin := if d.defaultCabin == "" then info[1] else d.defaultCabin)
  }

  /** The client a name addresses. */
  function Addressee(d: Deck, username: string): string {
    At(d.crewIds, username)
  }

  /** A cabin's message reaches its addressee only if the addressee's record names that cabin. */
  predicate Admits(d: Deck, cab: string, username: string) {
    ClientAt(d.clients, Addressee(d, username)).cabin == cab
  }

  /** The SEND branch of `handle_services_cabins_input`. */
  function PassOn(d: Deck, cab: string, send: Service): Reaction
    requires send.Send?
  {
    var c := Addressee(d, send.username);
    var known := d.(crewIds := With(d.crewIds, send.username), clients := WithClient(d.clients, c));
    Reaction(known,
             if Admits(d, cab, send.username)
             then [[ClientAt(d.clients, c).serverId, c, "CABIN", send.kind, send.sender] + send.rest]
             else [],
             [])
  }

  /** `handle_services_cabins_input`; `reply` is the frame the inner receive of a registration takes, None if
      it times out. */
  function OnCabin(d: Deck, input: Frames, reply: Option<Frames>): Reaction
    requires reply.Some? ==> |reply.value| >= 3
  {
    match ServiceOf(input)
    case Register =>
      if input[0] in d.cabins then Reaction(d, [], [])
      else
        var greeting := Greet(d, input[0]);
        if reply.Some? then greeting.(deck := Enter(d, reply.value)) else greeting
    case Send(_, _, _, _) => PassOn(d, input[0], ServiceOf(input))
    case _ => Reaction(d, [], [])
  }
}
