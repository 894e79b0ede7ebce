# A verified model of the ship deck and its multipart codec

A ship is a chat service made of processes that talk over ZeroMQ. Clients log in through a relay, the `Server`; the
`ShipDeck` keeps who is on board and in which cabin; and each cabin is a process of its own, a `LobbyCabin`, with its
own set of user names. The deck tells the cabins who joins and leaves and forwards texts to them; a cabin answers a
text with one SEND for each of its users, and the deck passes a SEND on only if the addressee's record names that
cabin. So the membership of a cabin exists twice, in the deck's maps and in the cabin's set, and the two are held
together only by the order of the messages between them. The first half of this project proves, over all runs, that
they are: rosters, head counts, whom a text addresses, who gets it, and in which order.

The second half is the multipart layer everything is sent with (`zmq_addon.hpp`): the framing of messages over a
socket, the deque `multipart_t`, and the codec of ZeroMQ RFC 50 over byte buffers.

## Layout

| files | contents |
|---|---|
| `Words`, `NetworkOrder`, `BitOrder`, `Codec`, `Framing` | the codec and the framing: loops over arrays, proved against functions on sequences; shifts and masks on bit vectors |
| `Defines`, `Deck`, `Shipdeck` | records and messages; the deck as a value; the class `ShipDeck`, proved against it |
| `Lobby`, `Client`, `Relay` | the cabin, the client and the relay: classes, and functions on their queues |
| `Membership` | what each handler of the deck does to directories, counts and rosters |
| `Protocol` | what each message makes the deck do, frame by frame |
| `World` | the system as a state machine: state, steps, runs |
| `Ledger`, `Invariant`, `CabinSteps`, `ClientSteps`, `Steps` | the invariant of the system, and that every step keeps it |
| `Rosters` | the second invariant, for runs in which no two online clients share a name |
| `History`, `Broadcasting`, `Completeness`, `Accounts`, `Seating`, `Discipline`, `Registration` | the theorems over all runs |
| `Typing` | from a typed line to its effect on the deck |
| `Progress`, `Opening` | what some run can always achieve: queues drain, texts arrive, newcomers board |

A step of the state machine is one call of a handler: a cabin or client starts, handles a message or a typed line; the
relay passes a message on; the deck handles a crew message or a cabin message. The registration handler of the deck
waits in an inner receive, so it is two steps, the greeting and then the info message or the timeout, and the deck's
other listener may act in between. What a state calls history (the texts forwarded with the members at that moment,
the broadcasts, the fate of each SEND, what a client submitted and received) is written by the steps and read by none.

`operator[]` of an `unordered_map` inserts a default entry for an unknown key; the model does so too, and proves where
that never happens. Counts are 32 bits wide and wrap around. The order in which a map or set is iterated is arbitrary.

## Assumptions

They are the conditions of `World.Enabled` and the shape of its state.

- Queues are FIFO and lose nothing for a peer; what a ROUTER sends to an unknown or empty id is dropped.
- Handlers are atomic steps. The deck's two listener threads share the maps without locks (`src/server/Shipdeck.cpp:29-31`).
- Routing ids are fresh and not empty, and there is one `Server`.
- A cabin's title is not empty and not the word SEND, and title and description are not the words REGISTRATION and JOIN;
  `CabinSteps.LateInfo` shows what these words would do.
- The inner receive of a registration takes a message of the cabin being registered; `Accounts.ForeignFrame` says what
  each message of another cabin would do. The 500 ms timeout is a step that leaves the maps as they are and may happen
  at any moment of the wait.
- A `/join` line has at least six characters, and the socket takes the login and the commands other than `/quit`, as the
  client itself asserts (`src/client/Client.cpp:49`, `265`, `271`). Texts and `/quit` may be refused.
- Every branch of a poll loop receives into an empty vector.

Two online clients may share a name, as the deck lets them. Only the theorems about rosters, about whom a text addresses
and about complete delivery are for runs in which that never happens (`Rosters.Unshared`), and say so;
`Accounts.SharedNameLosesTrack` and `Accounts.SharedNameChangesHands` say exactly when a shared name does what harm.

That a client sends nothing behind a `/quit` is not assumed: it follows from the client's handlers.

## Model

| member | source | states |
|---|---|---|
| `Broadcasting.SnapshotBroadcast` | src/server/Shipdeck.cpp:308-354 | In every run without shared names, every text a registered cabin broadcast was forwarded by a step of the run, from a client that was then a member, and addressed to exactly the names of those online in the cabin at that step; the texts still queued are those forwarded since, with the members of their moment; and the cabin's SENDs, handled or pending, are exactly the copies of its broadcasts |
| `Broadcasting.OneCopyForEachName` | src/server/LobbyCabin.cpp:25-35 | Without shared names, a broadcast text has exactly one copy for a name if the name was a member's when the text was forwarded, and none otherwise |
| `Broadcasting.CommonOrder` | src/server/Shipdeck.cpp:181-206 | In every reachable state the texts of a cabin sent to a client are a subsequence, in order and without repeats, of the texts the deck forwarded to that cabin |
| `Broadcasting.SharedOrder` | src/server/Shipdeck.cpp:308-321 | Any two clients that get two texts of a cabin get them in the same order |
| `Broadcasting.DeliverySafety` | src/server/Shipdeck.cpp:181-206 | Whenever a step of a run sends a client a cabin's text, the client is recorded in that cabin, and an earlier step of the run forwarded that very text, the next message of a client then online and recorded in the cabin |
| `Broadcasting.DeliveryAudience` | src/server/LobbyCabin.cpp:25-35 | Without shared names, the client's name was among those the text was addressed to |
| `History.EveryTextWasForwarded` | src/server/Shipdeck.cpp:308-321 | Every text in a cabin's history was forwarded by a step of the run: it was the sender's next submitted message, the sender was online and recorded in the cabin, and the text was noted with its name and the names of all members |
| `Completeness.ExactlyOneCopy` | src/server/Shipdeck.cpp:181-206 | If no name is shared and nobody joins, leaves or quits a cabin from the forwarding of a text until the cabin's queues are empty, the stream of cabin texts sent to every member, the author included, ends with this text and those forwarded after it, each once and in order; nobody else was sent any of them; and a client whose own queues are empty has received all it was sent |
| `Completeness.StableTextsDelivered` | src/server/LobbyCabin.cpp:21-35 | The same for every text forwarded since the membership of a drained cabin last changed |
| `Progress.TextCanReachMembers` | src/server/Shipdeck.cpp:308-321 | In whatever state without shared names a text is forwarded, the run can go on such that it is delivered to every member, the author included, once, and to nobody else |
| `Progress.Drainable` | src/server/LobbyCabin.cpp:19-49 | From every reachable state some run empties the queues of a registered cabin and leaves the deck's books as they are in all its states |
| `Opening.CabinCanRegister` | src/server/Shipdeck.cpp:147-180 | From every reachable state in which the deck awaits nothing, a new cabin can register: it is entered under its title with count 0, and its title becomes the default if there was none |
| `Opening.NewcomerCanLogIn` | src/client/Client.cpp:36-71 | From every reachable state with an idle relay and a default cabin, a new client can log in, under whatever name, and is then a running member of that cabin; no name is shared through it if its name was free |
| `Opening.TextCanBeForwarded` | src/client/Client.cpp:275-287 | Every line of such a client that is no command can be forwarded to its cabin as a text |
| `Opening.FirstWords` | src/server/Shipdeck.cpp:142-354 | For any cabin, client and text there is a run from the start in which the cabin registers, the client logs in and says the text, and the text is delivered to it |
| `Registration.RegistrationOutcome` | src/server/Shipdeck.cpp:157-172 | In every run from a state in which a cabin was greeted and is awaited, the cabin is on the books in the end if and only if the wait ended with its info message and not with the timeout |
| `Registration.PassedOverForever` | src/server/Shipdeck.cpp:158-159 | A cabin whose registration timed out is never entered, however long the run goes on |
| `Registration.OuterLoopIsHandler` | src/server/Shipdeck.cpp:142-207 | A step that takes a cabin's message has the effect of the handler, for a registration up to its inner receive |
| `Registration.InnerReceiveIsHandler` | src/server/Shipdeck.cpp:157-172 | The receipt of the info message, or the timeout, has the effect of the whole handler on the books as they then are |
| `Accounts.RosterAgreement` | src/server/LobbyCabin.cpp:41-48 | As long as no name is shared, applying a registered cabin's pending messages to its users gives exactly the names of the online clients recorded in it |
| `Accounts.ExactHeadcount` | src/server/Shipdeck.cpp:331-354 | In every reachable state each count is the number of online clients recorded in the cabin, modulo 2^32, and exactly so below 2^32 clients |
| `Accounts.NoUnderflow` | src/server/Shipdeck.cpp:336-350 | Whenever the deck handles a message in a reachable state, a count is taken down by one exactly where a DISCONNECT is sent, the cabin is then registered and its count above zero, and otherwise the count stays or is taken up by one |
| `Accounts.DrainedRosterIsCount` | src/server/LobbyCabin.cpp:41-48 | As long as no name is shared, once its queue is empty a cabin's users are the names of its members, and there are as many of them as the deck counts |
| `Accounts.Conservation` | src/server/Shipdeck.cpp:331-354 | In every reachable state the counts of all cabins add up to the number of online clients with a cabin |
| `Accounts.MovesConserve` | src/server/Shipdeck.cpp:263-274 | `/join` and `/leave` of a seated client change neither the set of seated clients nor the total of the counts |
| `Accounts.NobodySpeaksAfterQuitting` | src/client/Client.cpp:249-259 | In every run, whenever the deck is about to handle a message its sender has not quit |
| `Accounts.StaleCommandMiscounts` | src/server/Shipdeck.cpp:263-305 | A request of a client on the books keeps all counts right if and only if the client is online, is recorded in no cabin, or asks for no move: the record of the last cabin, which the deck keeps after `/quit`, would be counted down again |
| `Accounts.SharedNameLosesTrack` | src/server/LobbyCabin.cpp:46-48 | Handling a request lets every cabin stay in step if and only if it moves nobody out of a cabin, by `/join`, `/leave` or `/quit`, in which somebody else bears the same name |
| `Accounts.SharedNameChangesHands` | src/server/Shipdeck.cpp:229-239 | A login makes the newcomer the addressee of its name; of the clients that were addressees of their own names exactly those under other names still are, and all online ones are if and only if the name was free |
| `Accounts.ForeignFrame` | src/server/Shipdeck.cpp:157-172 | If the inner receive takes a message of another cabin, the awaited cabin is not entered, and the books and the other cabin stay as they should be if and only if the message is the info message of a cabin whose own registration had timed out; for a SEND and for a REGISTRATION it says what becomes of title, count and message |
| `Accounts.JoinRefusesHandshake` | src/server/Cabin.cpp:72-84 | A cabin still in its handshake takes a JOIN for a refusal |
| `CabinSteps.LateInfo` | src/server/Shipdeck.cpp:142-207 | The outer loop reads an info message that comes after the timeout out of bounds if and only if the title is SEND, takes it for a registration if and only if title and description are the two words of one, and ignores it otherwise |
| `Discipline.DirectoryConsistency` | src/server/Shipdeck.cpp:142-206 | In every reachable state all references of the deck's maps resolve, and the names in a registered cabin's roster, pending JOINs and pending SENDs are known |
| `Discipline.LookupsInsertNothing` | src/server/Shipdeck.cpp:184-190 | So the look-ups for a cabin's message never insert a default entry: the maps stay as they are |
| `Discipline.CrewWire` | src/server/Shipdeck.cpp:225-318 | In every reachable state every queued crew message has the frames its handler indexes |
| `Discipline.CabinWire` | src/server/LobbyCabin.cpp:19-48 | In every reachable state every message queued from or to a cabin has the frames its handler indexes, the awaited info message has three, and no cabin is refused |
| `Discipline.ClientWire` | src/client/Client.cpp:57-61 | In every run the first message a client receives is SHIP ACK, every later one has the frames its handlers index, and none of them tells the client to die |
| `Discipline.RelayRoundTrip` | src/server/Server.cpp:99-134 | What a client sends reaches the deck unchanged and in order behind the server's and its own id, what the deck addresses to it reaches it unchanged and in order without them, and once the queues are empty everything has arrived |
| `Discipline.ShowAllReply` | src/server/Shipdeck.cpp:292-301 | When the deck handles the frames CREW, COMMAND, /showall of a client on its books, that client is sent SHIP, INFO and, for every registered cabin, the lines "Cabin name: ", "Cabin description: " and "Current playing: " with its title, description and head count as a decimal numeral; nothing else is sent and the deck stays as it is |
| `Discipline.ShowAllReport` | src/server/defines.cpp:32-38 | That report has three frames for each registered cabin, and every title, description and head count can be read back from it |
| `Discipline.CommandReplies` | src/server/Shipdeck.cpp:257-306 | In every reachable state, when the deck handles the frames CREW, COMMAND, word and arguments of a client on its books, its maps change as the word says, the answers are queued for that client and the orders for the named cabins, and nobody else is sent anything |
| `Discipline.TextReplies` | src/server/Shipdeck.cpp:308-321 | The frames CREW, TEXT and a text change nothing at the deck and put TEXT, the sender's name and the text into the queue of the sender's cabin and of no other |
| `Protocol.CommandMeaning` | src/server/Shipdeck.cpp:257-306 | What each command of a client on the books does, on its literal frames: /leave moves it to the default cabin and /join to the cabin registered under the name, with record, both counts and both messages, if there is one and it is another; /ping is answered by SHIP ACK, /show by the three lines of its cabin, /showall by those of all cabins; /quit takes it offline, counts it out and tells its cabin; every other word changes and sends nothing; and what /leave and /join would do for a client that has quit |
| `Protocol.TextMeaning` | src/server/Shipdeck.cpp:308-321 | A text is sent to the cabin in the sender's record under the sender's name, and changes nothing |
| `Protocol.LoginMeaning` | src/server/Shipdeck.cpp:229-246 | A login of an unknown client creates its record with ids, name and password, online, in the default cabin if there is one, counts it there, makes the name stand for it, and sends SHIP ACK to it and JOIN to the cabin |
| `Protocol.NothingElse` | src/server/Shipdeck.cpp:225-254 | Other messages change and send nothing: those not from the crew, those of unknown clients but logins, those of known clients but commands and texts |
| `Protocol.SendMeaning` | src/server/Shipdeck.cpp:181-206 | A SEND for a known name goes, as CABIN, type, sender and the remaining frames, to the client the name stands for if its record names the sending cabin, and changes no map; one for an unknown name reaches nobody |
| `Protocol.RegistrationMeaning` | src/server/Shipdeck.cpp:147-180 | A registration of an unknown cabin is answered by SHIP, SUCCESS and its id; the info message in time enters id, title and description with count 0 and makes the title the default if there was none; a known cabin is ignored |
| `Protocol.NothingElseOfCabin` | src/server/Shipdeck.cpp:142-181 | Other messages of a cabin change and send nothing |
| `Typing.LineFrames` | src/client/Client.cpp:105-113 | On characters: a line is sent as CREW, TEXT and the line if it does not start with a slash, as CREW, COMMAND, /join and what stands behind the sixth character if it starts with /join, and as CREW, COMMAND and the line otherwise; the client runs on unless the line is /quit or a refused text |
| `Typing.JoinFrames` | src/client/Client.cpp:260-266 | For every name, typing /join, a space and the name sends exactly that name |
| `Typing.ClientOfRun` | src/client/Client.cpp:241-287 | Over every run: a client has submitted the messages of the lines its socket took, in order; it stops if and only if its user types /quit or its socket refuses a text; and as long as it has not stopped its socket took every line |
| `Typing.TypedLineTakesEffect` | src/server/Shipdeck.cpp:225-321 | From the keyboard to the deck, with anything happening in between: when what the client submitted before has been handled, its next message is the typed line's, on literal frames, and handling it changes the maps, answers and tells the cabins what the line says |
| `Typing.LineCanTakeEffect` | src/client/Client.cpp:241-287 | From every reachable state with nothing under way to the deck, a running client can have any line take effect on the deck as it is |
| `Typing.JoinLineMoves` | src/server/Shipdeck.cpp:269-274 | For every name: the request of a running client that types /join, a space and the name can be handled, and the client is then recorded in the cabin registered under the name if there is one, and where it was otherwise |
| `Seating.SeatingForever` | src/server/Shipdeck.cpp:168-178 | From any reachable state with a default cabin on, in every run, the default keeps its name and resolves to a registered cabin, and a client that had a registered cabin or was not online then has a registered cabin whenever it is online |
| `Seating.LoginSeated` | src/server/Shipdeck.cpp:229-246 | With a default cabin, a login puts the new client online into it |
| `Seating.JoinMovesExactly` | src/server/Shipdeck.cpp:263-274 | The frames CREW, COMMAND, /join and a name move the client if and only if a cabin other than its own is registered under the name: then its record names that cabin, the old one is sent DISCONNECT and the new one JOIN; otherwise, also for an unknown name, its record stays and no cabin is told anything. /leave is a /join of the default cabin |
| `Seating.StepSeats` | src/server/Shipdeck.cpp:263-274 | No step renames the default cabin, makes it unresolvable, or leaves an online client without a registered cabin |
| `Steps.InitHolds` | include/server/Shipdeck.hpp:35-42 | The system invariant holds at the start |
| `Steps.StepKeeps` | src/server/Shipdeck.cpp:142-354 | Every step of deck, cabins, clients and relay keeps the system invariant |
| `Steps.RunKeeps` | src/server/Shipdeck.cpp:142-354 | So does every run |
| `Rosters.StepKeepsInStep` | src/server/Shipdeck.cpp:331-354 | Every step that makes no two online clients share a name keeps every registered cabin in step: roster, snapshots of the members, deliveries since the last change |
| `Rosters.RunKeepsInStep` | src/server/Shipdeck.cpp:331-354 | So does every run without shared names |
| `Steps.CrewStep` | src/server/Shipdeck.cpp:225-254 | Whatever crew message is next, the deck can serve it, changes only the sender's record, and keeps its books sound |
| `Steps.RegistrationStep` | src/server/Shipdeck.cpp:147-157 | A registration of an unknown cabin is greeted and awaited, and the only message it can send next is its info message |
| `Steps.InfoStep` | src/server/Shipdeck.cpp:159-178 | The awaited info message enters the cabin with an empty roster and count |
| `Steps.SendStep` | src/server/Shipdeck.cpp:181-206 | A SEND the deck takes from a registered cabin is the cabin's next copy; the maps stay as they are, and it goes to the addressee if and only if its record names the cabin |
| `Steps.LateInfoStep` | src/server/Shipdeck.cpp:142-207 | An info message that comes after the timeout changes nothing on the books |
| `Invariant.CabinTurnOk` | src/server/LobbyCabin.cpp:19-48 | A cabin's turn keeps what is claimed of it: forwarded texts, ledger of SENDs, known names |
| `Invariant.CabinAfterCrewOk` | src/server/Shipdeck.cpp:225-354 | Every crew message keeps what is claimed of every cabin |
| `History.NoticesRecordForwarding` | src/server/Shipdeck.cpp:308-321 | A step adds to a cabin's forwarded texts if and only if the deck handles the text of a client recorded there; then that text joins them with the names of the members at that moment, and the TEXT message joins the cabin's queue |
| `History.StepGrows` | src/server/Shipdeck.cpp:142-354 | No step takes back anything of what was forwarded, broadcast, handled, sent or received |
| `Membership.ChangeCabinSound` | src/server/Shipdeck.cpp:331-354 | A move of an online client keeps directories and counts sound and does nothing if the target is unknown; its messages lead every cabin to its new members if and only if the client leaves no namesake behind |
| `Membership.ChangeCabinMoves` | src/server/Shipdeck.cpp:334-353 | A move to another registered cabin changes one record and the counts of two cabins, and sends DISCONNECT to the old and JOIN to the new one |
| `Membership.EnrollSound` | src/server/Shipdeck.cpp:229-246 | A login keeps the books sound, creates exactly one record, seated at the default cabin, takes its name over, acknowledges it, and leads every cabin to its new members |
| `Membership.LookupAndChangeSound` | src/server/Shipdeck.cpp:263-274 | `/leave` and `/join` keep the books sound and move the client exactly if the name resolves; the cabins can follow if and only if it leaves no namesake behind |
| `Membership.QuitSound` | src/server/Shipdeck.cpp:302-304 | `/quit` of an online client keeps the books sound and only takes it offline; the cabins can follow if and only if it leaves no namesake behind |
| `Membership.SaySound` | src/server/Shipdeck.cpp:308-321 | A text goes to the sender's cabin alone and changes no roster |
| `Membership.OnRequestSound` | src/server/Shipdeck.cpp:225-306 | Every request of a client that has not quit keeps directories, counts and default sound, sends each cabin exactly the text forwarded to it, and leads every cabin to its members if and only if the client leaves no namesake behind |
| `Membership.OnRequestUnique` | src/server/Shipdeck.cpp:229-239 | Handling a request keeps every online client the addressee of its name if and only if it is no login under the name of an online client |
| `Membership.OnRequestAffects` | src/server/Shipdeck.cpp:225-306 | A request changes only its sender's record and sends at most one reply, to the sender |
| `Membership.OnRequestProper` | src/server/Shipdeck.cpp:308-354 | Every message to a cabin has the frames its handler indexes, is for a registered cabin or nobody, and seats only known names |
| `Membership.EnterSound` | src/server/Shipdeck.cpp:164-178 | Entering an unknown cabin keeps the books sound and moves nobody |
| `Membership.EnterResetsCount` | src/server/Shipdeck.cpp:168-172 | Entering a registered cabin again keeps the counts right if and only if it is empty (modulo 2^32) |
| `Membership.PassOnSound` | src/server/Shipdeck.cpp:181-206 | A SEND for a known name changes no map |
| `Membership.CountIsExact` | include/server/defines.hpp:39-43 | Below 2^32 clients the 32-bit count is the head count |
| `ClientSteps.HeadMessage` | src/client/Client.cpp:155-170 | The message the deck handles next is its client's next submitted one: a login if and only if the client is unknown, and its sender has not quit |
| `ClientSteps.ReplyReaches` | src/server/defines.cpp:40-50 | A header-addressed reply reaches exactly the addressed client, without the two ids |
| `ClientSteps.DeliveryReaches` | src/server/Shipdeck.cpp:190-205 | A delivery reaches the addressee as CABIN, TEXT, sender and text, if its record names the cabin, and nobody else |
| `ClientSteps.ClientSaysOk` | src/client/Client.cpp:249-287 | Whatever line a running client handles, it keeps its discipline: a login first, then lines, and nothing behind a `/quit` |
| `Shipdeck.ShipDeck.ChangePlayerCabins` | src/server/Shipdeck.cpp:331-354 | The method's new maps and sent messages are those of `Deck.ChangeCabin`, about which the lemmas above speak |
| `Shipdeck.ShipDeck.Login` | src/server/Shipdeck.cpp:229-246 | Likewise for the login branch: record, name table, ACK, then the move to the default cabin |
| `Shipdeck.ShipDeck.LeaveCommand` | src/server/Shipdeck.cpp:263-268 | Likewise for `/leave` |
| `Shipdeck.ShipDeck.JoinCommand` | src/server/Shipdeck.cpp:269-274 | Likewise for `/join` |
| `Shipdeck.ShipDeck.ShowCommand` | src/server/Shipdeck.cpp:276-285 | Likewise for `/show` |
| `Shipdeck.ShipDeck.ReportMp` | src/server/Shipdeck.cpp:295-299 | The append loop adds three frames for every cabin, each cabin once, in the order of iteration |
| `Shipdeck.ShipDeck.ShowAllCommand` | src/server/Shipdeck.cpp:292-301 | Likewise for `/showall` |
| `Shipdeck.ShipDeck.QuitCommand` | src/server/Shipdeck.cpp:302-305 | Likewise for `/quit` |
| `Shipdeck.ShipDeck.HandleCrewmateInputCommand` | src/server/Shipdeck.cpp:257-306 | On sound books the method does with the frames of a command what its word says: /leave and /join move, /ping, /show and /showall answer, /quit takes the client offline, and every other word changes and sends nothing |
| `Shipdeck.ShipDeck.HandleCrewmateInputText` | src/server/Shipdeck.cpp:308-321 | Sends the text with the sender's name to the sender's cabin and changes no map |
| `Shipdeck.ShipDeck.HandleCrewmateInput` | src/server/Shipdeck.cpp:225-254 | Likewise for the dispatch on the message type: an unknown client can only log in, a known one not again |
| `Shipdeck.ShipDeck.HandleServerInput` | src/server/Shipdeck.cpp:68-83 | Likewise for the dispatch on the kind of sender: only CREW messages have an effect |
| `Shipdeck.ShipDeck.HandleServicesCabinsInput` | src/server/Shipdeck.cpp:142-207 | Registration with or without a reply in time, and SEND with the default entries its look-ups insert |
| `Lobby.LobbyCabin.constructor` | src/server/Cabin.cpp:67-71 | A new cabin has no users and has sent REGISTRATION, JOIN |
| `Lobby.LobbyCabin.Authenticate` | src/server/Cabin.cpp:32-36 | The cabin is alive if and only if the reply starts with SHIP, SUCCESS; then it has the id behind them and has sent its title, its description and the count "0", and otherwise nothing |
| `Lobby.LobbyCabin.HandleShipdeckInput` | src/server/LobbyCabin.cpp:19-49 | JOIN adds and DISCONNECT removes the name behind it; TEXT sends SEND, TEXT, user, sender and text once for each user, in some order, and changes no user; anything else does nothing |
| `Lobby.LobbyCabin.PollLoop` | src/server/Cabin.cpp:49-64 | Over a whole queue, users and broadcasts are those of the functions `FinalUsers` and `Replay` |
| `Lobby.FinalUsersConcat` | src/server/LobbyCabin.cpp:41-48 | The users after two queues are those of handling one behind the other |
| `Lobby.ReplayConcat` | src/server/LobbyCabin.cpp:21-35 | So are the broadcasts, each with the users of its moment |
| `Client.Client.constructor` | src/client/Client.cpp:43-55 | CREW, LOGIN, username and password are sent, once, if and only if the first send is accepted, whatever the retry loop behind it does |
| `Client.Dealer.ResendWhileAgain` | src/client/Client.cpp:51-55 | The retry loop sends again if and only if the first send reported as many frames as the error number, so never after a refusal |
| `Client.Dealer.SendWithRetries` | src/client/Client.cpp:255-258 | Up to ten attempts send the message once if and only if fewer than ten are refused |
| `Client.Client.HandleUserInputCommand` | src/client/Client.cpp:249-273 | A line from /join on sends CREW, COMMAND, /join and what stands behind the sixth character, every other command CREW, COMMAND and the whole line; the client runs on if and only if the line is not /quit, which is sent in up to ten attempts |
| `Client.Client.HandleUserInputText` | src/client/Client.cpp:275-287 | The client runs on if and only if CREW, TEXT and the text were sent, that is if fewer than ten attempts were refused; otherwise nothing is sent |
| `Client.Client.HandleUserLine` | src/client/Client.cpp:105-113 | A line that starts with a slash is handled as a command and every other line as a text: what is sent, frame by frame, and whether the client runs on |
| `Client.Client.HandleReceived` | src/client/Client.cpp:155-198 | A received message stops the client if and only if it is the ship's command to die |
| `Relay.Server.ClientListenerTurn` | src/server/Server.cpp:128-134 | One turn sends on one message of the clients, unchanged and in order |
| `Relay.Server.ShipListenerTurn` | src/server/Server.cpp:99-104 | One turn sends on one message of the deck, unchanged and in order |
| `Relay.RoutedPrefixed` | src/server/Server.cpp:99-134 | A routed message reaches its addressee with exactly the first frame stripped, and nobody else |
| `Defines.DecimalRoundTrip` | src/server/defines.cpp:36 | What is printed for a count is a decimal numeral, without a leading zero unless it is 0, whose value is the count |
| `Defines.DecimalIsTheNumeral` | src/server/defines.cpp:36 | It is the only such numeral: a string is printed for a count if and only if it consists of digits, has no zero in front of another digit and has the count as its value |
| `Defines.ReportLines` | src/server/defines.cpp:32-38 | The i-th cabin of a report has three lines at their places, the literal labels followed by title, description and numeral |
| `Defines.ReportFidelity` | src/server/defines.cpp:32-38 | A report has three frames per cabin, and titles, descriptions and counts can be read back |
| `Defines.CrewHeaderMp` | src/server/defines.cpp:40-50 | The header built step by step: server id, client id, sender, type |
| `Defines.ZmqInfoMp` | src/server/defines.cpp:32-38 | The three frames built step by step are "Cabin name: " and the title, "Cabin description: " and the description, "Current playing: " and the numeral of the count |
| `NetworkOrder.ReadOfWrite` | include/zmq_addon.hpp:116-139 | Reading what was written gives the value back |
| `NetworkOrder.WriteOfRead` | include/zmq_addon.hpp:116-139 | Writing what was read gives the four bytes back |
| `BitOrder.WriteIsShiftsOfBits` | include/zmq_addon.hpp:116-127 | On every 32-bit value the quotients and remainders of the model write the bytes that the shifts and masks of the source write |
| `BitOrder.ReadIsShifts` | include/zmq_addon.hpp:129-133 | On every four bytes the model reads what the sum of shifted bytes of the source reads |
| `NetworkOrder.WriteNetworkOrder` | include/zmq_addon.hpp:116-127 | Writes the four bytes at the offset and touches nothing else |
| `NetworkOrder.ReadU32NetworkOrder` | include/zmq_addon.hpp:129-139 | Reads the value of the four bytes at the offset |
| `Codec.WireFormat` | include/zmq_addon.hpp:252-284 | The bytes of an encoded part: below 255 bytes its size in one byte and the part; up to 2^32 - 1 the byte 255, its size in four bytes, the highest first, and the part; longer parts cannot be encoded. A four-byte size below 255 is decoded all the same |
| `Codec.RoundTrip` | include/zmq_addon.hpp:251-331 | Decoding the encoding of any list of parts below 2^32 bytes returns the list |
| `Codec.EncodingConcat` | include/zmq_addon.hpp:251-288 | The encoding of a concatenation is the concatenation of the encodings |
| `Codec.DecoderAcceptsTheGrammar` | include/zmq_addon.hpp:306-331 | The decoder accepts a byte string with certain parts if and only if it is a sequence of frames, short or long, with these data |
| `Codec.CanonicalReencoding` | include/zmq_addon.hpp:251-331 | The parts of any accepted byte string can be encoded; the re-encoding decodes to the same parts, is never longer, and is equally long if and only if it is the same bytes |
| `Codec.Truncation` | include/zmq_addon.hpp:306-331 | A byte string of frames cut anywhere yields exactly the parts wholly in front of the cut, and no error if and only if the cut is on a boundary; the error says whether a size or a part was cut |
| `Codec.EncodingTruncation` | include/zmq_addon.hpp:251-331 | A strict prefix of an encoding decodes to a strict prefix of the parts if it is that prefix's encoding, and otherwise to such a prefix and out_of_range |
| `Codec.CutInsideFrame` | include/zmq_addon.hpp:312-323 | A cut inside one frame yields no part, and the size error if and only if it falls into a five-byte size |
| `Codec.WholeFramesBracketsTheCut` | include/zmq_addon.hpp:310-327 | The cut lies behind the frames counted as whole and before the end of the next one |
| `Codec.EncodedSize` | include/zmq_addon.hpp:252-264 | The first pass: the exact length of the encoding, or range_error if and only if a part does not fit 32 bits |
| `Codec.EncodePart` | include/zmq_addon.hpp:268-284 | One turn of the second pass writes one frame behind what is there |
| `Codec.Encode` | include/zmq_addon.hpp:251-288 | The buffer is filled exactly, with the encoding |
| `Codec.DecodeSize` | include/zmq_addon.hpp:311-319 | One- and five-byte sizes, with the bounds check |
| `Codec.DecodePart` | include/zmq_addon.hpp:310-327 | One turn of the decoder's loop: advances, never past the limit, or fails |
| `Codec.Decode` | include/zmq_addon.hpp:306-331 | Appends exactly the decoded parts, ends at the limit or reports the error, on every input |
| `Codec.DecodeAppend` | include/zmq_addon.hpp:647-649 | Appends exactly the decoded parts |
| `Codec.EncodeThenDecodeAppend` | include/zmq_addon.hpp:644-649 | On buffers: decode_append of an encoding appends the encoded parts |
| `Framing.StreamFraming` | include/zmq_addon.hpp:88-109 | Non-empty messages sent one after another are received with the same contents and boundaries |
| `Framing.ResendingReproduces` | include/zmq_addon.hpp:201-221 | Sending again what was received reproduces every complete stream frame by frame |
| `Framing.HeadOfStream` | include/zmq_addon.hpp:88-109 | The first receive takes exactly the first message |
| `Framing.SndmoreJoins` | include/zmq_addon.hpp:209-211 | Parts sent with sndmore and those behind them are one message |
| `Framing.SendMultipart` | include/zmq_addon.hpp:201-221 | All parts with the right flags, or none if the socket refuses |
| `Framing.RecvMultipartN` | include/zmq_addon.hpp:88-109 | The first message, or exactly its first n parts and an error, the rest left unread |
| `Framing.Multipart.Append` | include/zmq_addon.hpp:469-472 | Concatenates to the back and empties the other |
| `Framing.Multipart.Prepend` | include/zmq_addon.hpp:463-466 | Concatenates to the front, in order, and empties the other |
| `Framing.Multipart.Send` | include/zmq_addon.hpp:443-460 | Sends all parts as one message and is empty; a refusal has lost the first part |
| `Framing.Multipart.Recv` | include/zmq_addon.hpp:424-440 | Replaces the contents with the next message, or with nothing |

## Findings

- A command that moves a client which has quit would count its last cabin down again, as the deck keeps the cabin in the
  record. `Accounts.StaleCommandMiscounts` gives the exact condition, and `Accounts.NobodySpeaksAfterQuitting` shows that
  the client never sends one.
- A registration that takes another cabin's message leaves the awaited cabin out for good and enters the other one
  instead, which is right only for a cabin that had timed out itself (`Accounts.ForeignFrame`).
- A cabin whose info message misses the timeout is never registered, as nothing makes it ask again
  (`Registration.RegistrationOutcome`, `Registration.PassedOverForever`); the message itself is ignored unless its title
  is a command word (`CabinSteps.LateInfo`).
- A login under the name of an online client takes the name over, and a namesake that leaves a cabin takes the name out of
  its roster (`Accounts.SharedNameChangesHands`, `Accounts.SharedNameLosesTrack`).
- `multipart_t::send` loses the first part if, and only if, the socket refuses it (`Framing.Multipart.Send`).
- The retry loop of the client's constructor never sends a refused login again: it compares the result of the send, which
  is empty after a refusal, with an error number (`Client.Dealer.ResendWhileAgain`, `Client.Client.constructor`).

## Left out

- Sockets, polling, threads, thread joins and timers are steps and queues; data races on the deck's maps are not modelled.
- Shutdown of deck, cabins and server through the control sockets: only endings of runs.
- Console input and output, `Display` and the printing functions: no state depends on them.
- `include/zhelpers.hpp`, `active_poller_t` and `poller_ref_t`: thin wrappers and a draft interface.
- `src/server/ServerBridgeCabin.cpp`, `ServerConn`, the containers, the bridges and the handlers for sub-ships and the top
  ship: not built, stubs or plain forwarding.
- Passwords are stored and never checked.
- Several servers whose clients have colliding ids: the deck keys its records by client id alone.
- The big-endian branch of the u32 helpers copies memory; only the shift-and-mask branch is modelled.
- Codec.EncodedSize: sizes are unbounded; a total of 2^64 bytes or more would wrap around in the source.
- Shipdeck.ShipDeck.HandleCrewmateInput: messages with fewer frames than the handler indexes, which the source reads out
  of bounds, are excluded; `Discipline.CrewWire` shows that none is ever queued.
- Shipdeck.ShipDeck.HandleServicesCabinsInput: likewise, with `Discipline.CabinWire`.
- Lobby.LobbyCabin.HandleShipdeckInput: likewise, with `Discipline.CabinWire`.
- Lobby.LobbyCabin.Authenticate: likewise for the reply to the registration.
- Client.Client.HandleReceived: likewise, with `Discipline.ClientWire`; what it prints is not modelled.
- World.NewClient: the login is taken by the socket, as the source asserts; a client whose login is refused sends nothing
  (`Client.Client.constructor`).
- Client.Client.HandleUserInputCommand: commands other than `/quit` require that the socket takes the message, which the
  source asserts.
- Framing.Multipart.Append: appending a multipart to itself, on which the source's loop does not end, is excluded.
- Framing.Multipart.Prepend: likewise.
- Codec.EncodeThenDecodeAppend: source and target are different objects.
