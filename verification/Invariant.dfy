/** The invariant of the whole system, and what each kind of step means for one cabin and for one client. */
module Invariant {
  import opened Client
  import opened Deck
  import opened Defines
  import opened Ledger
  import opened Lobby
  import opened Membership
  import opened Relay
  import opened World
  import opened Wrappers

  // ----- Cabins -----

  /** What the cabin broadcast, and what it will broadcast for its pending messages, are the texts the deck
      forwarded. */
  ghost predicate Forwarded(p: CabinProc) {
    && |p.submitters| == |p.notices|
    && p.stableFrom <= |p.notices|
    && AllCarry(p.broadcasts, p.notices)
    && SameTexts(Replay(p.users, p.inbox), p.notices[|p.broadcasts|..])
  }

  /** The SENDs the deck handled and the pending ones are the copies of the broadcasts, in order. */
  ghost predicate Ledgered(p: CabinProc) {
    var copies := Copies(p.broadcasts);
    && |p.settled| <= |copies|
    && p.outbox == SendsOf(copies[|p.settled|..])
    && forall i :: 0 <= i < |p.settled| ==> p.settled[i].username == copies[i].username
  }

  /** Every name the cabin deals with is on the deck's books, and a delivery went to a bearer of its name. */
  ghost predicate Known(d: Deck, p: CabinProc) {
    && p.users <= d.crewIds.Keys
    && AllHandled(d.crewIds.Keys, p.inbox)
    && (forall k, u :: 0 <= k < |p.broadcasts| && u in p.broadcasts[k].order ==> u in d.crewIds)
    && (forall i :: 0 <= i < |p.settled| ==>
          p.settled[i].client in d.clients && d.clients[p.settled[i].client].username == p.settled[i].username)
  }

  ghost predicate Registered(d: Deck, p: CabinProc) {
    && p.phase.Serving?
    && Forwarded(p)
    && Ledgered(p)
    && Known(d, p)
  }

  ghost predicate NoHistory(p: CabinProc) {
    p.notices == [] && p.submitters == [] && p.broadcasts == [] && p.settled == [] && p.stableFrom == 0
  }

  function SuccessMsg(cab: string): Frames {
    ["SHIP", "SUCCESS", cab]
  }

  /** The four stages of a cabin the deck does not know yet: asked, greeted, introduced, and passed over by a
      registration handler that timed out. The handler awaits it only in the middle two. */
  ghost predicate Unregistered(cab: string, awaited: bool, p: CabinProc) {
    && p.users == {} && NoHistory(p)
    && (
      || (p.phase.Registering? && p.inbox == [] && p.outbox == [REGISTRATION] && !awaited)
      || (p.phase.Registering? && p.inbox == [SuccessMsg(cab)] && p.outbox == [])
      || (p.phase.Serving? && p.inbox == [] && p.outbox == [InfoMsg(p.title, p.description)])
      || (p.phase.Serving? && p.inbox == [] && p.outbox == [] && !awaited))
  }

  ghost predicate CabinOk(d: Deck, awaiting: Option<string>, cab: string, p: CabinProc) {
    && cab != "" && Titled(p.title, p.description)
    && if cab in d.cabins then awaiting != Some(cab) && Registered(d, p)
       else Unregistered(cab, awaiting == Some(cab), p)
  }

  // ----- Clients -----

  /** A message of a running client: a text, or a command with the argument its handler indexes. */
  ghost predicate IsLine(m: Frames) {
    && |m| >= 3 && m[0] == "CREW"
    && (m[1] == "TEXT" || (m[1] == "COMMAND" && (m[2] == "/join" ==> |m| >= 4)))
  }

  predicate IsQuit(m: Frames) {
    |m| >= 3 && m[1] == "COMMAND" && m[2] == "/quit"
  }

  /** A client sends its login, then lines, and nothing behind a `/quit`. */
  ghost predicate Disciplined(p: ClientProc) {
    && p.submitted != [] && p.submitted[0] == LoginMsg(p.username, p.password)
    && (forall i :: 1 <= i < |p.submitted| ==> IsLine(p.submitted[i]))
    && (forall i :: 0 <= i < |p.submitted| && IsQuit(p.submitted[i]) ==>
          i == |p.submitted| - 1 && p.phase.Stopped?)
    && (p.phase.LoggingIn? ==> |p.submitted| == 1)
  }

  /** What the client sent reaches the deck in order, through its own queue and the relay's. */
  ghost predicate Upstream(up: seq<Frames>, c: string, p: ClientProc) {
    p.submitted == p.consumed + Routed(up, c) + p.outbox
  }

  function FramesOfAll(es: seq<Emission>): (frames: seq<Frames>)
    ensures |frames| == |es|
  {
    seq(|es|, i requires 0 <= i < |es| => es[i].frames)
  }

  /** What the deck sent to the client reaches it in order. */
  ghost predicate Downstream(down: seq<Frames>, c: string, p: ClientProc) {
    FramesOfAll(p.emitted) == p.received + p.inbox + Routed(down, c)
  }

  ghost predicate NoQuit(ms: seq<Frames>) {
    forall i :: 0 <= i < |ms| ==> !IsQuit(ms[i])
  }

  /** The deck's record of the client follows from the messages it handled. */
  ghost predicate Recorded(d: Deck, serverId: string, c: string, p: ClientProc) {
    && (c in d.clients <==> p.consumed != [])
    && (c in d.clients ==>
          && d.clients[c].username == p.username
          && d.clients[c].serverId == serverId
          && (d.clients[c].online <==> NoQuit(p.consumed)))
  }

  const ACK: Frames := ["SHIP", "ACK"]

  /** The deck's messages can be read, none of them kills the client, and the first one is the ACK. */
  ghost predicate Greeted(p: ClientProc) {
    && (p.emitted == [] <==> p.consumed == [])
    && (p.emitted != [] ==> p.emitted[0] == Emission(ACK, None))
    && (forall i :: 0 <= i < |p.emitted| ==> Readable(p.emitted[i].frames) && !KillsClient(p.emitted[i].frames))
    && (p.received == [] <==> p.phase.LoggingIn?)
  }

  ghost predicate ClientOk(d: Deck, serverId: string, up: seq<Frames>, down: seq<Frames>, c: string, p: ClientProc) {
    && Disciplined(p)
    && Upstream(up, c, p)
    && Downstream(down, c, p)
    && Recorded(d, serverId, c, p)
    && Greeted(p)
  }

  // ----- Deliveries -----

  function TextMsg(copy: Copy): Frames {
    ["CABIN", "TEXT", copy.sender, copy.text]
  }

  /** A message the deck passed on to a client is a copy the cabin sent. */
  ghost predicate Sourced(cabins: map<string, CabinProc>, e: Emission) {
    e.origin.Some? ==>
      var o := e.origin.value;
      && o.cabin in cabins
      && o.n < |cabins[o.cabin].settled| <= |Copies(cabins[o.cabin].broadcasts)|
      && e.frames == TextMsg(Copies(cabins[o.cabin].broadcasts)[o.n])
  }

  ghost predicate AllSourced(cabins: map<string, CabinProc>, p: ClientProc) {
    forall i :: 0 <= i < |p.emitted| ==> Sourced(cabins, p.emitted[i])
  }

  /** The deliveries on the cabin's side and on the client's side are the same, in the same order. */
  ghost predicate Agree(cab: string, p: CabinProc, c: string, q: ClientProc) {
    DeliveredTo(p.settled, c) == FromCabin(q.emitted, cab)
  }

  ghost predicate Deliveries(cabins: map<string, CabinProc>, clients: map<string, ClientProc>) {
    && (forall c :: c in clients ==> AllSourced(cabins, clients[c]))
    && (forall cab, c :: cab in cabins && c in clients ==> Agree(cab, cabins[cab], c, clients[c]))
  }

  // ----- Everything -----

  ghost predicate CabinsOk(d: Deck, awaiting: Option<string>, cabins: map<string, CabinProc>) {
    forall cab :: cab in cabins ==> CabinOk(d, awaiting, cab, cabins[cab])
  }

  ghost predicate ClientsOk(d: Deck, serverId: string, up: seq<Frames>, down: seq<Frames>,
                            clients: map<string, ClientProc>) {
    forall c :: c in clients ==> ClientOk(d, serverId, up, down, c, clients[c])
  }

  /** The messages between relay and deck carry the id of an existing client. */
  ghost predicate Addressed(messages: seq<Frames>, clients: set<string>) {
    forall i :: 0 <= i < |messages| ==> messages[i] != [] && messages[i][0] in clients
  }

  /** The deck's books are sound and list only what exists. */
  ghost predicate Books(w: World) {
    && DeckInv(w.deck)
    && w.deck.cabins.Keys <= w.cabins.Keys
    && w.deck.clients.Keys <= w.clients.Keys
    && (w.awaiting.Some? ==> w.awaiting.value in w.cabins)
    && Addressed(w.up, w.clients.Keys)
    && Addressed(w.down, w.clients.Keys)
  }

  ghost predicate Inv(w: World) {
    && Books(w)
    && CabinsOk(w.deck, w.awaiting, w.cabins)
    && ClientsOk(w.deck, w.serverId, w.up, w.down, w.clients)
    && Deliveries(w.cabins, w.clients)
  }

  // ===== One cabin =====

  lemma KnownTurn(d: Deck, p: CabinProc, order: seq<string>)
    requires Known(d, p) && p.phase.Serving? && p.inbox != [] && Enumerates(order, p.users)
    ensures Known(d, CabinNext(p, order))
  {
    var m := p.inbox[0];
    assert OrderOf(m).Seat? ==> OrderOf(m).username in d.crewIds.Keys;
  }

  lemma QuietTurn(p: CabinProc, order: seq<string>)
    requires Forwarded(p) && Ledgered(p) && p.phase.Serving? && p.inbox != [] && !OrderOf(p.inbox[0]).Tell?
    ensures Forwarded(CabinNext(p, order)) && Ledgered(CabinNext(p, order))
  {
    var q := CabinNext(p, order);
    assert [] + Replay(q.users, q.inbox) == Replay(q.users, q.inbox);
  }

  /** A cabin's turn keeps what is claimed of it. */
  lemma ServingTurn(d: Deck, p: CabinProc, order: seq<string>)
    requires Registered(d, p) && p.inbox != [] && Enumerates(order, p.users)
    ensures Registered(d, CabinNext(p, order))
  {
    hide Known, Forwarded, Ledgered, Enumerates;
    KnownTurn(d, p, order);
    if OrderOf(p.inbox[0]).Tell? {
      BroadcastTurn(p, order);
      BroadcastLedger(p, order);
    } else {
      QuietTurn(p, order);
    }
  }

  lemma BroadcastTurn(p: CabinProc, order: seq<string>)
    requires Forwarded(p) && p.phase.Serving? && p.inbox != [] && OrderOf(p.inbox[0]).Tell?
    requires Enumerates(order, p.users)
    ensures Forwarded(CabinNext(p, order))
  {
    var q := CabinNext(p, order);
    var notice := NoticesAt(p.users, p.inbox[0])[0];
    var n := |p.broadcasts|;
    var coming, rest := Replay(p.users, p.inbox), Replay(q.users, q.inbox);
    assert coming == [notice] + rest;
    assert p.notices[n].sender == notice.sender && p.notices[n].text == notice.text by {
      assert p.notices[n] == p.notices[n..][0] && coming[0] == notice;
    }
    assert Carries(q.broadcasts[n], p.notices[n]);
    assert p.notices[n + 1..] == p.notices[n..][1..] && coming[1..] == rest;
  }

  lemma BroadcastLedger(p: CabinProc, order: seq<string>)
    requires Ledgered(p) && p.phase.Serving? && p.inbox != [] && OrderOf(p.inbox[0]).Tell?
    ensures Ledgered(CabinNext(p, order))
    ensures Copies(p.broadcasts) <= Copies(CabinNext(p, order).broadcasts)
  {
    var q := CabinNext(p, order);
    var b := q.broadcasts[|p.broadcasts|];
    var copies, more := Copies(p.broadcasts), CopiesOf(|p.broadcasts|, b);
    CopiesOfOneMore(p.broadcasts, b);
    assert Copies(q.broadcasts)[|p.settled|..] == copies[|p.settled|..] + more;
    SendsOfConcat(copies[|p.settled|..], more);
    SendsOfCopies(|p.broadcasts|, b);
  }

  /** The turn of a cabin in its registration. */
  lemma RegisteringTurn(cab: string, awaited: bool, p: CabinProc, order: seq<string>)
    requires Unregistered(cab, awaited, p) && p.inbox != []
    ensures Unregistered(cab, awaited, CabinNext(p, order))
  {
    assert Accepts(SuccessMsg(cab));
  }

  lemma CabinTurnOk(d: Deck, awaiting: Option<string>, cab: string, p: CabinProc, order: seq<string>)
    requires CabinOk(d, awaiting, cab, p)
    requires p.inbox != [] && Enumerates(order, p.users)
    ensures CabinOk(d, awaiting, cab, CabinNext(p, order))
  {
    if cab in d.cabins {
      ServingTurn(d, p, order);
    } else {
      RegisteringTurn(cab, awaiting == Some(cab), p, order);
    }
  }

  // ----- A crew message, as one cabin sees it -----

  lemma ForwardedAfterCrew(p: CabinProc, cab: string, d: Deck, r: Reaction, c: string, request: Request)
    requires cab != "" && Forwarded(p)
    requires Replay(Names(d, cab), Routed(r.toCabins, cab)) == NoticesOf(d, c, request, cab)
    ensures Forwarded(CabinAfterCrew(p, cab, d, r, c, request))
  {
    var q := CabinAfterCrew(p, cab, d, r, c, request);
    var queue, n := Routed(r.toCabins, cab), |p.broadcasts|;
    assert q.inbox == p.inbox + queue && q.users == p.users && q.broadcasts == p.broadcasts;
    assert q.notices == p.notices + NoticesOf(d, c, request, cab) && |q.submitters| == |q.notices|
        && q.stableFrom <= |q.notices|;
    hide CabinAfterCrew, Replay, FinalUsers, Routed, NoticesOf, Names, SameTexts;
    ReplayConcat(p.users, p.inbox, queue);
    ReplayTexts(FinalUsers(p.users, p.inbox), Names(d, cab), queue);
    assert q.notices[n..] == p.notices[n..] + NoticesOf(d, c, request, cab);
    SameTextsConcat(Replay(p.users, p.inbox), p.notices[n..], Replay(FinalUsers(p.users, p.inbox), queue),
                    NoticesOf(d, c, request, cab));
    CarryMore(p.broadcasts, p.notices, q.notices);
  }

  lemma CarryMore(bs: seq<Broadcast>, ns: seq<Notice>, more: seq<Notice>)
    requires AllCarry(bs, ns) && ns <= more
    ensures AllCarry(bs, more)
  {
    hide Carries;
  }

  lemma KnownAfterCrew(p: CabinProc, cab: string, d: Deck, r: Reaction, c: string, request: Request)
    requires Directory(d) && Extends(d, r.deck) && Known(d, p)
    requires AllHandled(r.deck.crewIds.Keys, Routed(r.toCabins, cab))
    ensures Known(r.deck, CabinAfterCrew(p, cab, d, r, c, request))
  {
  }

  /** Once the deck has handled a crew message, every cabin is as claimed. */
  lemma CabinAfterCrewOk(d: Deck, awaiting: Option<string>, cab: string, p: CabinProc, s: string, c: string,
                         request: Request, order: seq<string>)
    requires DeckInv(d) && Enumerates(order, d.cabins.Keys) && Serviceable(d, c)
    requires CabinOk(d, awaiting, cab, p)
    ensures var r := OnRequest(d, s, c, request, order);
            CabinOk(r.deck, awaiting, cab, CabinAfterCrew(p, cab, d, r, c, request))
  {
    var r := OnRequest(d, s, c, request, order);
    OnRequestSound(d, s, c, request, order);
    OnRequestProper(d, s, c, request, order);
    RoutedProper(r.deck, r.toCabins, cab);
    OnRequestKeepsCabins(d, s, c, request, order);
    if cab in d.cabins {
      ForwardedAfterCrew(p, cab, d, r, c, request);
      KnownAfterCrew(p, cab, d, r, c, request);
    } else {
      NobodyInUnknownCabin(d, cab);
      NobodyInUnknownCabin(r.deck, cab);
    }
  }

  lemma MoveKeepsCabins(d: Deck, c: string, cab: string)
    requires c in d.clients && (d.clients[c].cabin == "" || d.clients[c].cabin in d.cabins)
    ensures ChangeCabin(d, c, cab).deck.cabins.Keys == d.cabins.Keys
  {
  }

  lemma OnRequestKeepsCabins(d: Deck, s: string, c: string, request: Request, order: seq<string>)
    requires DeckInv(d) && Enumerates(order, d.cabins.Keys) && Serviceable(d, c)
    ensures OnRequest(d, s, c, request, order).deck.cabins.Keys == d.cabins.Keys
  {
    assert Directory(d) && (c in d.clients ==> d.clients[c].cabin == "" || d.clients[c].cabin in d.cabins);
    hide DeckInv, ChangeCabin, Directory;
    if request.Login? && c !in d.clients {
      EnrollIsMove(d, s, c, request.username, request.password);
      MoveKeepsCabins(Named(d, s, c, request.username, request.password), c, At(d.cabinIds, d.defaultCabin));
    } else if c in d.clients && request.Leave? {
      MoveKeepsCabins(d.(cabinIds := With(d.cabinIds, d.defaultCabin)), c, At(d.cabinIds, d.defaultCabin));
    } else if c in d.clients && request.Join? {
      MoveKeepsCabins(d.(cabinIds := With(d.cabinIds, request.cabinName)), c, At(d.cabinIds, request.cabinName));
    } else if c in d.clients && request.Quit? {
      MoveKeepsCabins(d.(clients := d.clients[c := d.clients[c].(online := false)]), c, "");
    }
  }

  lemma NobodyInUnknownCabin(d: Deck, cab: string)
    requires Directory(d) && cab != "" && cab !in d.cabins
    ensures Members(d, cab) == {} && forall c :: c in d.clients ==> d.clients[c].cabin != cab
  {
  }
}
