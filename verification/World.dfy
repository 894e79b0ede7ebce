/** The whole system as a state machine: the ship deck, the cabin processes, the clients and the relay between
    them, with the FIFO queues that connect them. One action is one call of a handler.

    The deck handles one message at a time. Its registration handler waits in an inner receive, so it is two
    actions: the greeting, after which the deck awaits the cabin's info message, and the receipt of that message
    or the timeout. The other listener of the deck may act in between.

    The fields marked as history are written by the actions and read by none of them. */
module World {
  import opened Client
  import opened Deck
  import opened Defines
  import opened Lobby
  import opened Membership
  import opened Relay
  import opened Wrappers

  datatype CabinPhase = Registering | Serving | Refused

  /** One text a cabin broadcast, and the order in which it visited its users. */
  datatype Broadcast = Broadcast(sender: string, text: string, order: seq<string>)

  /** What became of one SEND of a cabin: the client its name stood for, and whether that client got it. */
  datatype Settled = Settled(username: string, client: string, delivered: bool)

  datatype CabinProc = CabinProc(
    phase: CabinPhase,
    title: string,
    description: string,
    users: set<string>,
    inbox: seq<Frames>,
    outbox: seq<Frames>,
    // history: the texts the deck forwarded to the cabin, with the members' names at that time, and who
    // submitted them; the cabin's broadcasts; its SENDs as the deck handled them; and the number of texts
    // forwarded when the membership of the cabin last changed
    notices: seq<Notice>,
    submitters: seq<string>,
    broadcasts: seq<Broadcast>,
    settled: seq<Settled>,
    stableFrom: nat)

  datatype ClientPhase = LoggingIn | Active | Stopped

  /** The n-th SEND of a cabin. */
  datatype Origin = Origin(cabin: string, n: nat)

  /** A message the deck sent to a client, and the SEND it passes on, if it does. */
  datatype Emission = Emission(frames: Frames, origin: Option<Origin>)

  datatype ClientProc = ClientProc(
    phase: ClientPhase,
    username: string,
    password: string,
    inbox: seq<Frames>,
    outbox: seq<Frames>,
    // history: what the client received and sent, what the deck handled of it and sent back
    received: seq<Frames>,
    submitted: seq<Frames>,
    consumed: seq<Frames>,
    emitted: seq<Emission>)

  /** `up` and `down` are the queues between the relay and the deck, each message with the client's id in
      front; `awaiting` is the cabin whose info message the deck's registration handler waits for. */
  datatype World = World(
    serverId: string,
    deck: Deck,
    awaiting: Option<string>,
    cabins: map<string, CabinProc>,
    clients: map<string, ClientProc>,
    up: seq<Frames>,
    down: seq<Frames>)

  datatype Action =
    | SpawnCabin(cab: string, title: string, description: string)
    | CabinTurn(cab: string, order: seq<string>)
    | SpawnClient(c: string, username: string, password: string)
    | UserLine(c: string, line: string, accepted: bool)
    | ClientTurn(c: string)
    | RelayUp(c: string)
    | RelayDown
    | DeckCrew(order: seq<string>)
    | DeckCabin(cab: string)
    | DeckInfo
    | DeckTimeout

  function Init(serverId: string): World {
    World(serverId, NEW_DECK, None, map[], map[], [], [])
  }

  /** The title is not empty, and after a timeout the deck's outer loop would not take the info message for a command
      (see `LateInfo`). */
  predicate Titled(title: string, description: string) {
    title != "" && title != "SEND" && (title == "REGISTRATION" ==> description != "JOIN")
  }

  // ----- The processes -----

  function NewCabin(title: string, description: string): CabinProc {
    CabinProc(Registering, title, description, {}, [], [REGISTRATION], [], [], [], [], 0)
  }

  /** A cabin handles the first message of its queue: the reply to its registration, then the deck's orders. */
  function CabinNext(p: CabinProc, order: seq<string>): CabinProc
    requires p.inbox != []
  {
    var m := p.inbox[0];
    var q := p.(inbox := p.inbox[1..]);
    if p.phase.Registering? then
      if Accepts(m) then q.(phase := Serving, outbox := q.outbox + [InfoMsg(p.title, p.description)])
      else q.(phase := Refused)
    else
      var users := UsersAfter(p.users, m);
      match OrderOf(m)
      case Tell(sender, text) =>
        q.(users := users, outbox := q.outbox + SendAll(order, sender, text),
           broadcasts := q.broadcasts + [Broadcast(sender, text, order)])
      case _ => q.(users := users)
  }

  function NewClient(username: string, password: string): ClientProc {
    ClientProc(LoggingIn, username, password, [], [LoginMsg(username, password)],
               [], [LoginMsg(username, password)], [], [])
  }

  /** The message the client's constructor waits for; its receive takes at most three frames. */
  predicate IsAck(m: Frames) {
    2 <= |m| <= 3 && m[0] == "SHIP" && m[1] == "ACK"
  }

  function ClientNext(p: ClientProc): ClientProc
    requires p.inbox != []
  {
    var m := p.inbox[0];
    var q := p.(inbox := p.inbox[1..], received := p.received + [m]);
    if p.phase.LoggingIn? then q.(phase := if IsAck(m) then Active else Stopped)
    else q.(phase := if KillsClient(m) then Stopped else p.phase)
  }

  function ClientSays(p: ClientProc, line: string, accepted: bool): ClientProc
    requires Typeable(line)
  {
    var sent := if accepted then [LineMsg(line)] else [];
    p.(outbox := p.outbox + sent, submitted := p.submitted + sent,
       phase := if RunsAfter(line, accepted) then p.phase else Stopped)
  }

  // ----- The deck -----

  /** A crew message as the deck receives it. */
  function DeckInput(w: World, m: Frames): Frames {
    Prefixed(w.serverId, m)
  }

  /** The request of a message from the relay: the dispatch on the sender, and the crew handler's parse. */
  function CrewRequest(input: Frames): Request {
    if |input| >= 3 && input[2] == "CREW" then RequestOf(input) else Ignored
  }

  function Emissions(frames: seq<Frames>, origin: Option<Origin>): (es: seq<Emission>)
    ensures |es| == |frames|
  {
    seq(|frames|, i requires 0 <= i < |frames| => Emission(frames[i], origin))
  }

  /** What reaches one client of what the deck sends to the server. */
  function ToClient(serverId: string, toServer: seq<Frames>, c: string): seq<Frames> {
    Routed(Routed(toServer, serverId), c)
  }

  ghost function CabinAfterCrew(p: CabinProc, cab: string, d: Deck, r: Reaction, c: string, request: Request)
    : CabinProc
  {
    var forwarded := NoticesOf(d, c, request, cab);
    var notices := p.notices + forwarded;
    p.(inbox := p.inbox + Routed(r.toCabins, cab),
       notices := notices,
       submitters := p.submitters + seq(|forwarded|, i => c),
       stableFrom := if Members(r.deck, cab) == Members(d, cab) then p.stableFrom else |notices|)
  }

  function ClientAfterCrew(p: ClientProc, c: string, serverId: string, r: Reaction, m: Frames): ClientProc {
    p.(consumed := p.consumed + Routed([m], c),
       emitted := p.emitted + Emissions(ToClient(serverId, r.toServer, c), None))
  }

  ghost function AfterCrew(w: World, order: seq<string>): World
    requires w.up != [] && Enumerates(order, w.deck.cabins.Keys)
  {
    var m := w.up[0];
    var input := DeckInput(w, m);
    var c := if |input| >= 2 then input[1] else "";
    var r := OnServerInput(w.deck, input, order);
    w.(deck := r.deck, up := w.up[1..], down := w.down + Routed(r.toServer, w.serverId),
       cabins := map k | k in w.cabins :: CabinAfterCrew(w.cabins[k], k, w.deck, r, c, CrewRequest(input)),
       clients := map k | k in w.clients :: ClientAfterCrew(w.clients[k], k, w.serverId, r, m))
  }

  /** The deck passes on a SEND of a cabin. */
  function AfterSend(w: World, cab: string, send: Service): World
    requires cab in w.cabins && w.cabins[cab].outbox != [] && send.Send?
  {
    var p := w.cabins[cab];
    var r := PassOn(w.deck, cab, send);
    var origin := Some(Origin(cab, |p.settled|));
    var fate := Settled(send.username, Addressee(w.deck, send.username), Admits(w.deck, cab, send.username));
    w.(deck := r.deck, down := w.down + Routed(r.toServer, w.serverId),
       cabins := w.cabins[cab := p.(outbox := p.outbox[1..], settled := p.settled + [fate])],
       clients := map k | k in w.clients ::
         w.clients[k].(emitted := w.clients[k].emitted + Emissions(ToClient(w.serverId, r.toServer, k), origin)))
  }

  /** The deck handles the first message of a cabin in its outer loop. */
  function AfterCabin(w: World, cab: string): World
    requires cab in w.cabins && w.cabins[cab].outbox != []
  {
    var p := w.cabins[cab];
    var input := Prefixed(cab, p.outbox[0]);
    var service := ServiceOf(input);
    var q := p.(outbox := p.outbox[1..]);
    if service.Register? && cab !in w.deck.cabins then
      w.(awaiting := Some(cab),
         cabins := w.cabins[cab := q.(inbox := q.inbox + Routed(Greet(w.deck, cab).toCabins, cab))])
    else if service.Send? then AfterSend(w, cab, service)
    else w.(cabins := w.cabins[cab := q])
  }

  /** The inner receive of the registration handler. */
  function AfterInfo(w: World): World
    requires w.awaiting.Some? && w.awaiting.value in w.cabins && w.cabins[w.awaiting.value].outbox != []
  {
    var cab := w.awaiting.value;
    var p := w.cabins[cab];
    var info := Prefixed(cab, p.outbox[0]);
    w.(awaiting := None,
       deck := if |info| >= 3 then Enter(w.deck, info) else w.deck,
       cabins := w.cabins[cab := p.(outbox := p.outbox[1..])])
  }

  // ----- Steps -----

  /** When an action can happen. The assumptions on the environment are: fresh non-empty routing ids; titles the deck
      cannot take for a command; and the inner receive of a registration takes a message of the cabin being
      registered. */
  ghost predicate Enabled(w: World, a: Action) {
    match a
    case SpawnCabin(cab, title, description) => cab != "" && cab !in w.cabins && Titled(title, description)
    case CabinTurn(cab, order) =>
      && cab in w.cabins && w.cabins[cab].inbox != [] && !w.cabins[cab].phase.Refused?
      && Enumerates(order, w.cabins[cab].users)
    case SpawnClient(c, _, _) => c != "" && c !in w.clients
    case UserLine(c, line, accepted) =>
      && c in w.clients && w.clients[c].phase.Active? && Typeable(line)
      && (IsCommand(line) && line != "/quit" ==> accepted)
    case ClientTurn(c) => c in w.clients && w.clients[c].inbox != [] && !w.clients[c].phase.Stopped?
    case RelayUp(c) => c in w.clients && w.clients[c].outbox != []
    case RelayDown => w.down != []
    case DeckCrew(order) => w.up != [] && Enumerates(order, w.deck.cabins.Keys)
    case DeckCabin(cab) => w.awaiting.None? && cab in w.cabins && w.cabins[cab].outbox != []
    case DeckInfo => w.awaiting.Some? && w.awaiting.value in w.cabins && w.cabins[w.awaiting.value].outbox != []
    case DeckTimeout => w.awaiting.Some?
  }

  ghost function Next(w: World, a: Action): World
    requires Enabled(w, a)
  {
    match a
    case SpawnCabin(cab, title, description) => w.(cabins := w.cabins[cab := NewCabin(title, description)])
    case CabinTurn(cab, order) => w.(cabins := w.cabins[cab := CabinNext(w.cabins[cab], order)])
    case SpawnClient(c, username, password) => w.(clients := w.clients[c := NewClient(username, password)])
    case UserLine(c, line, accepted) => w.(clients := w.clients[c := ClientSays(w.clients[c], line, accepted)])
    case ClientTurn(c) => w.(clients := w.clients[c := ClientNext(w.clients[c])])
    case RelayUp(c) =>
      var p := w.clients[c];
      w.(up := w.up + [Prefixed(c, p.outbox[0])], clients := w.clients[c := p.(outbox := p.outbox[1..])])
    case RelayDown =>
      w.(down := w.down[1..],
         clients := map k | k in w.clients ::
           w.clients[k].(inbox := w.clients[k].inbox + Routed([w.down[0]], k)))
    case DeckCrew(order) => AfterCrew(w, order)
    case DeckCabin(cab) => AfterCabin(w, cab)
    case DeckInfo => AfterInfo(w)
    case DeckTimeout => w.(awaiting := None)
  }

  // ----- Runs -----

  /** The actions can happen one after another from `w`. */
  ghost predicate Runs(w: World, actions: seq<Action>)
    decreases |actions|
  {
    actions == [] || (Enabled(w, actions[0]) && Runs(Next(w, actions[0]), actions[1..]))
  }

  ghost function After(w: World, actions: seq<Action>): World
    requires Runs(w, actions)
    decreases |actions|
  {
    if actions == [] then w else After(Next(w, actions[0]), actions[1..])
  }
}
